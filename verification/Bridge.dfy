/** Carrying events from one local ET system to another (localET_2_localET).

    A Port is one attachment's view of its ET system. What its calls may answer is
    what the calls of et_event.c answer, as the module Attached shows: any events it does
    not own yet, at least one when they succeed; and on failure possibly events that were
    read but that the caller is told nothing of, if temp events are concerned. */
module Bridge {
  import opened EventLists
  import opened EventLife
  import opened Options

  const CONTROL_INTS: nat := 6

  type Control = c: seq<int> | |c| == CONTROL_INTS witness [0, 0, 0, 0, 0, 0]

  /** What travels. The data are its bytes, each an int. */
  datatype Payload = Payload(length: nat, priority: int, byteorder: bv32, control: Control, data: seq<int>)

  datatype Msg = Msg(load: Payload, memsize: nat, temp: bool)

  datatype Status = OK | ERROR

  const NATIVE_ORDER: bv32 := 0x04030201
  const SWAPPED_ORDER: bv32 := 0x01020304

  /** The user's function may fail. */
  type SwapFunc = (seq<int>, bool) -> Option<seq<int>>

  /** The chunk sizes are at least 1, which their setters see to. */
  datatype Config = Config(chunkFrom: nat, chunkTo: nat, func: Option<SwapFunc>, shouldBe: bv32, nselects: nat) {
    predicate Valid() { chunkFrom > 0 && chunkTo > 0 && nselects <= CONTROL_INTS }
  }

  function Blank(size: nat): (r: Payload) {
    Payload(size, 0, NATIVE_ORDER, Zeros(CONTROL_INTS), Zeros(size))
  }

  /** The first n control words of another event, and zeros after. */
  function Controls(c: Control, n: nat): Control {
    seq(CONTROL_INTS, k => if 0 <= k < n && k < CONTROL_INTS then c[k] else 0)
  }

  function Zeros(n: nat): seq<int> { seq(n, i => 0) }

  function Swap32(x: bv32): bv32 {
    (x >> 24) | ((x & 0x00ff0000) >> 8) | ((x & 0x0000ff00) << 8) | (x << 24)
  }

  /** Data are swapped, and the byte-order tag with them, only when there is a swap
      function and the tag is not as it should be. */
  predicate Swaps(cfg: Config, g: Payload) { cfg.func != None && g.byteorder != cfg.shouldBe }

  function Swapped(cfg: Config, g: Payload): Option<seq<int>>
    requires Swaps(cfg, g)
  { cfg.func.value(g.data, g.byteorder == NATIVE_ORDER) }

  /** A payload whose data must be swapped and cannot be. */
  predicate Fails(cfg: Config, g: Payload) { Swaps(cfg, g) && Swapped(cfg, g) == None }

  predicate NoneFails(cfg: Config, got: seq<Payload>) { forall k :: 0 <= k < |got| ==> !Fails(cfg, got[k]) }

  /** What the bridge makes of a payload, if it does not fail. */
  function Convert(cfg: Config, g: Payload): Payload {
    var r := g.(control := Controls(g.control, cfg.nselects));
    if Swaps(cfg, g) && Swapped(cfg, g).Some? then
      r.(byteorder := Swap32(g.byteorder), data := Swapped(cfg, g).value)
    else r
  }

  // ----- a set of events held, in disjoint parts -----

  /** The events h are those of base, of the two lists, and leaked. */
  ghost predicate Holds(h: set<nat>, base: set<nat>, ps: seq<nat>, ds: seq<nat>, leaked: set<nat>) {
    && h == base + Elements(ps) + Elements(ds) + leaked
    && Distinct(ps + ds) && base !! leaked
    && (forall i :: 0 <= i < |ps| ==> ps[i] !in base && ps[i] !in leaked)
    && (forall i :: 0 <= i < |ds| ==> ds[i] !in base && ds[i] !in leaked)
  }

  /** Events es, none of them in h0, were added to it. */
  ghost predicate Added(h0: map<nat, Msg>, h1: map<nat, Msg>, es: seq<nat>) {
    && Distinct(es)
    && h1.Keys == h0.Keys + Elements(es)
    && (forall i :: 0 <= i < |es| ==> es[i] !in h0)
    && forall e :: e in h0 ==> e in h1 && h1[e] == h0[e]
  }

  /** How a call leaves the events an attachment holds, if its own puts and dumps
      worked: it holds as many more as its failing calls read in vain. */
  ghost predicate Left(held: set<nat>, base: set<nat>, failed: int, strays: int) {
    failed == 0 ==> base <= held && |held| == |base| + strays
  }

  /** Besides those of base a temp event is held. */
  predicate TempBesides(h: map<nat, Msg>, base: set<nat>) { exists e :: e in h && e !in base && h[e].temp }

  lemma StraysLeft(h0: map<nat, Msg>, h1: map<nat, Msg>, es: seq<nat>)
    requires Added(h0, h1, es)
    ensures Left(h1.Keys, h0.Keys, 0, |es|)
  {
    ElementsCount(es);
  }

  ghost function LoadsOf(h: map<nat, Msg>, es: seq<nat>): (r: seq<Payload>)
    requires forall i :: 0 <= i < |es| ==> es[i] in h
    ensures |r| == |es|
  {
    seq(|es|, i requires 0 <= i < |es| => h[es[i]].load)
  }

  class Port {
    const nevents: nat
    const eventSize: nat
    var held: map<nat, Msg>
    ghost var sent: seq<Payload>      // what was put, in order
    ghost var failures: nat           // puts and dumps that failed
    ghost var strays: nat             // events read by calls that then failed

    ghost predicate Valid()
      reads this
    {
      forall e :: e in held ==> e < nevents && held[e].memsize >= eventSize
    }

    constructor (nevents: nat, eventSize: nat)
      ensures Valid() && held == map[] && sent == [] && failures == 0 && strays == 0
      ensures this.nevents == nevents && this.eventSize == eventSize
    {
      this.nevents, this.eventSize := nevents, eventSize;
      held := map[];
      sent, failures, strays := [], 0, 0;
    }

    predicate MayAnswer(es: seq<nat>, msgs: map<nat, Msg>, num: nat)
      reads this
    {
      && |es| <= num && Distinct(es) && msgs.Keys == Elements(es)
      && forall i :: 0 <= i < |es| ==>
           es[i] < nevents && es[i] !in held && msgs[es[i]].memsize >= eventSize
    }

    /** Some events come into the attachment's hands. */
    method Take(num: nat) returns (es: seq<nat>)
      requires Valid()
      modifies this`held
      ensures Valid() && Added(old(held), held, es) && |es| <= num && |es| <= nevents
    {
      var msgs: map<nat, Msg>;
      es, msgs := *, *;
      if !MayAnswer(es, msgs, num) { es, msgs := [], map[]; }
      held := held + msgs;
      Bounded(es, nevents);
    }

    method Copy(es: seq<nat>, arr: array<nat>)
      requires |es| <= arr.Length
      modifies arr
      ensures arr[..|es|] == es
    {
      for i := 0 to |es|
        invariant arr[..i] == es[..i]
      {
        arr[i] := es[i];
      }
    }

    /** et_events_get. It fails after its read only when it cannot map a temp event. */
    method Get(num: nat, arr: array<nat>) returns (status: Status, n: nat)
      requires Valid() && (arr.Length >= nevents || arr.Length >= num)
      modifies this`held, this`strays, arr
      ensures Valid() && n <= arr.Length
      ensures status == OK ==> 1 <= n <= num && Added(old(held), held, arr[..n]) && strays == old(strays)
      ensures status != OK ==> n == 0 && Left(held.Keys, old(held.Keys), 0, strays - old(strays)) && strays >= old(strays)
      ensures strays == old(strays) || TempBesides(held, old(held.Keys))
    {
      ghost var h0 := held;
      var es := Take(num);
      Copy(es, arr);
      var mapped := true;
      for i := 0 to |es|
        invariant mapped || TempBesides(held, h0.Keys)
      {
        assert es[i] in Elements(es);
        if held[es[i]].temp { mapped := *; }
      }
      if mapped && |es| > 0 { return OK, |es|; }
      strays := strays + |es|;
      StraysLeft(old(held), held, es);
      return ERROR, 0;
    }

    function NewMsg(size: nat): Msg {
      Msg(Blank(size), if size > eventSize then size else eventSize, size > eventSize)
    }

    method TakeBlank(num: nat, size: nat) returns (es: seq<nat>)
      requires Valid()
      modifies this`held
      ensures Valid() && Added(old(held), held, es) && |es| <= num && |es| <= nevents
      ensures forall i :: 0 <= i < |es| ==> held[es[i]] == NewMsg(size)
    {
      es := Take(num);
      held := map e | e in held :: if e in es then NewMsg(size) else held[e];
    }

    /** et_events_new. It fails after its read only when it cannot make a temp event. */
    method NewMany(num: nat, size: nat, arr: array<nat>) returns (status: Status, n: nat)
      requires Valid() && (arr.Length >= nevents || arr.Length >= num)
      modifies this`held, this`strays, arr
      ensures Valid() && n <= arr.Length
      ensures status == OK ==> 1 <= n <= num && Added(old(held), held, arr[..n]) && strays == old(strays)
      ensures status == OK ==> forall i :: 0 <= i < n ==> held[arr[i]] == NewMsg(size)
      ensures status != OK ==> n == 0 && Left(held.Keys, old(held.Keys), 0, strays - old(strays)) && strays >= old(strays)
      ensures strays != old(strays) ==> size > eventSize
    {
      var ok: bool := *;
      var es := TakeBlank(num, size);
      Copy(es, arr);
      if (ok || size <= eventSize) && |es| > 0 {
        assert forall i :: 0 <= i < |es| ==> arr[..|es|][i] == es[i];
        return OK, |es|;
      }
      strays := strays + |es|;
      StraysLeft(old(held), held, es);
      return ERROR, 0;
    }

    /** et_event_new, into one place of an array. When it fails after it has read an
        event, that place names the event read. */
    method New(size: nat, arr: array<nat>, i: nat) returns (status: Status)
      requires Valid() && i < arr.Length
      modifies this`held, this`strays, arr
      ensures Valid()
      ensures status == OK ==>
        && Added(old(held), held, [arr[i]]) && held[arr[i]] == NewMsg(size) && strays == old(strays)
      ensures status != OK ==>
        || (arr[..] == old(arr[..]) && held == old(held) && strays == old(strays))
        || (Added(old(held), held, [arr[i]]) && strays == old(strays) + 1 && size > eventSize)
      ensures arr[..] == old(arr[..])[i := arr[i]]
    {
      var es := TakeBlank(1, size);
      if |es| == 0 {
        assert held == old(held);
        return ERROR;
      }
      arr[i] := es[0];
      assert es == [arr[i]];
      var ok: bool := *;
      if ok || size <= eventSize { return OK; }
      strays := strays + 1;
      return ERROR;
    }

    /** et_events_put. Its caller may only name events it owns, and each only once. */
    method Put(es: seq<nat>) returns (status: Status)
      requires Valid() && Distinct(es) && forall i :: 0 <= i < |es| ==> es[i] in held
      modifies this`held, this`sent, this`failures
      ensures Valid()
      ensures |es| == 0 ==> status == OK
      ensures status == OK ==>
        held == old(held) - Elements(es) && sent == old(sent) + LoadsOf(old(held), es) && failures == old(failures)
      ensures status != OK ==> held == old(held) && sent == old(sent) && failures == old(failures) + 1
    {
      var ok: bool := *;
      if |es| == 0 || ok {
        sent := sent + LoadsOf(held, es);
        held := held - Elements(es);
        return OK;
      }
      failures := failures + 1;
      return ERROR;
    }

    /** et_events_dump. */
    method Dump(es: seq<nat>) returns (status: Status)
      requires Valid() && Distinct(es) && forall i :: 0 <= i < |es| ==> es[i] in held
      modifies this`held, this`failures
      ensures Valid()
      ensures |es| == 0 ==> status == OK
      ensures status == OK ==> held == old(held) - Elements(es) && failures == old(failures)
      ensures status != OK ==> held == old(held) && failures == old(failures) + 1
    {
      var ok: bool := *;
      if |es| == 0 || ok {
        held := held - Elements(es);
        return OK;
      }
      failures := failures + 1;
      return ERROR;
    }

    /** Writing into an event one owns. The data must fit its memory. */
    method Write(e: nat, load: Payload)
      requires Valid() && e in held && load.length <= held[e].memsize
      modifies this`held
      ensures Valid() && held == old(held)[e := old(held)[e].(load := load)]
    {
      held := held[e := held[e].(load := load)];
    }
  }

  lemma Bounded(es: seq<nat>, n: nat)
    requires Distinct(es) && forall i :: 0 <= i < |es| ==> es[i] < n
    ensures |es| <= n
  {
    ElementsCount(es);
    Subset(Elements(es), Indices(n));
  }

  // ----- filling the new events -----

  /** No payload is longer than size. */
  predicate Fit(got: seq<Payload>, size: nat) { forall k :: 0 <= k < |got| ==> got[k].length <= size }

  datatype Outcome = Filled | TooSmall | NotSwapped

  /** New event p carries what event g does, converted, which did not fail. */
  predicate Carries(to: map<nat, Msg>, from: map<nat, Msg>, p: nat, g: nat, cfg: Config) {
    p in to && g in from && to[p].load == Convert(cfg, from[g].load) && !Fails(cfg, from[g].load)
  }

  /** The first i of the new events ps carry the converted payloads of gs from offset on. */
  ghost predicate CarryUpTo(to: map<nat, Msg>, from: map<nat, Msg>, ps: seq<nat>, gs: seq<nat>, offset: nat, i: nat, cfg: Config) {
    && i <= |ps| && offset + |ps| <= |gs|
    && (forall k :: 0 <= k < |gs| ==> gs[k] in from)
    && (forall k :: 0 <= k < |ps| ==> ps[k] in to)
    && (forall k :: 0 <= k < i ==> Carries(to, from, ps[k], gs[offset + k], cfg))
  }

  /** And the others are blank still. */
  ghost predicate FilledUpTo(to: map<nat, Msg>, from: map<nat, Msg>, ps: seq<nat>, gs: seq<nat>, offset: nat, i: nat, cfg: Config) {
    && CarryUpTo(to, from, ps, gs, offset, i, cfg)
    && (forall k :: i <= k < |ps| ==> to[ps[k]].load.control == Zeros(CONTROL_INTS))
  }

  lemma {:induction false} DistinctParts(ps: seq<nat>, ds: seq<nat>)
    ensures Distinct(ps + ds) <==>
      Distinct(ps) && Distinct(ds) && forall i, j :: 0 <= i < |ps| && 0 <= j < |ds| ==> ps[i] != ds[j]
  {
    var s := ps + ds;
    if Distinct(s) {
      forall i, j | 0 <= i < |ps| && 0 <= j < |ds| ensures ps[i] != ds[j] { assert s[i] != s[|ps| + j]; }
      forall i, j | 0 <= i < j < |ds| ensures ds[i] != ds[j] { assert s[|ps| + i] != s[|ps| + j]; }
      forall i, j | 0 <= i < j < |ps| ensures ps[i] != ps[j] { assert s[i] != s[j]; }
    }
  }

  lemma ElementsSwap(ps: seq<nat>, i: nat, e: nat)
    requires Distinct(ps) && i < |ps| && e !in ps
    ensures Elements(ps[i := e]) == Elements(ps) - {ps[i]} + {e}
  {
    var qs := ps[i := e];
    forall x ensures x in qs <==> (x in ps && x != ps[i]) || x == e {
      if x in ps && x != ps[i] {
        var k :| 0 <= k < |ps| && ps[k] == x;
        assert qs[k] == x;
      }
      assert qs[i] == e;
    }
  }

  lemma SwapIn(h: set<nat>, base: set<nat>, ps: seq<nat>, ds: seq<nat>, i: nat, e: nat)
    requires Holds(h, base, ps, ds, {}) && i < |ps| && e !in h
    ensures Holds(h + {e}, base, ps[i := e], ds + [ps[i]], {})
    ensures Holds(h + {e}, base, ps[i := e], ds, {ps[i]})
  {
    DistinctParts(ps, ds);
    assert forall k :: 0 <= k < |ds| ==> ds[k] in Elements(ds);
    assert forall k :: 0 <= k < |ps| ==> ps[k] in Elements(ps);
    DistinctParts(ps[i := e], ds + [ps[i]]);
    DistinctParts(ps[i := e], ds);
    ElementsSwap(ps, i, e);
    assert Elements(ds + [ps[i]]) == Elements(ds) + {ps[i]};
  }

  /** Copy what matters of event g into the new event p, swapping the data if needed. */
  method CopyEvent(from: Port, to: Port, cfg: Config, g: nat, p: nat) returns (ok: bool)
    requires from != to && to.Valid() && cfg.Valid() && g in from.held && p in to.held
    requires to.held[p].load.control == Zeros(CONTROL_INTS)
    requires from.held[g].load.length <= to.held[p].memsize
    modifies to`held
    ensures to.Valid() && p in to.held && to.held == old(to.held)[p := to.held[p]]
    ensures to.held[p].memsize == old(to.held[p].memsize)
    ensures ok ==> to.held[p].load == Convert(cfg, from.held[g].load)
    ensures ok <==> !Fails(cfg, from.held[g].load)
  {
    var src, load := from.held[g].load, to.held[p].load;
    load := load.(length := src.length, priority := src.priority, byteorder := src.byteorder);
    for k := 0 to cfg.nselects
      invariant load == Payload(src.length, src.priority, src.byteorder, Controls(src.control, k), load.data)
    {
      load := load.(control := load.control[k := src.control[k]]);
    }
    ok := true;
    if cfg.func == None {
      load := load.(data := src.data);
    } else if load.byteorder != cfg.shouldBe {
      var sameEndian := load.byteorder == NATIVE_ORDER;
      match cfg.func.value(src.data, sameEndian)
      case Some(data) => load := load.(data := data, byteorder := Swap32(load.byteorder));
      case None => ok := false;
    } else {
      load := load.(data := src.data);
    }
    to.Write(p, load);
  }

  /** What becomes of the new events ps and the rejected ones ds when ps[i] is to be
      replaced: a larger event takes its place, or none does. Then either nothing has
      changed, or an event was read in vain, which takes its place all the same. */
  ghost predicate Replaced(h0: map<nat, Msg>, h1: map<nat, Msg>, base: set<nat>, ps: seq<nat>, qs: seq<nat>, ds: seq<nat>,
                           i: nat, ok: bool, stray: nat, leaked: set<nat>) {
    && i < |ps| == |qs| && qs == ps[i := qs[i]] && qs[i] in h1
    && (forall e :: e in h0 ==> e in h1 && h1[e] == h0[e])
    && (ok ==> leaked == {} && stray == 0 && Holds(h1.Keys, base, qs, ds + [ps[i]], {}))
    && (!ok ==> |leaked| == stray && Holds(h1.Keys, base, qs, ds, leaked))
  }

  lemma ReplacedBy(h0: map<nat, Msg>, h1: map<nat, Msg>, base: set<nat>, ps: seq<nat>, ds: seq<nat>, i: nat, e: nat)
    requires Holds(h0.Keys, base, ps, ds, {}) && i < |ps| && Added(h0, h1, [e])
    ensures Replaced(h0, h1, base, ps, ps[i := e], ds, i, true, 0, {})
    ensures Replaced(h0, h1, base, ps, ps[i := e], ds, i, false, 1, {ps[i]})
  {
    assert [e][0] == e && Elements([e]) == {e};
    SwapIn(h0.Keys, base, ps, ds, i, e);
  }

  lemma NotReplaced(h: map<nat, Msg>, base: set<nat>, ps: seq<nat>, ds: seq<nat>, i: nat)
    requires Holds(h.Keys, base, ps, ds, {}) && i < |ps|
    ensures Replaced(h, h, base, ps, ps, ds, i, false, 0, {})
  {
    assert ps[i] in Elements(ps);
  }

  /** Ask for a larger event in place of put[i]. */
  method Replace(to: Port, length: nat, put: array<nat>, n: nat, i: nat, ghost ds: seq<nat>, ghost base: set<nat>)
    returns (ok: bool, ghost leaked: set<nat>)
    requires to.Valid() && i < n <= put.Length && Holds(to.held.Keys, base, put[..n], ds, {})
    modifies to`held, to`strays, put
    ensures to.Valid() && to.strays >= old(to.strays)
    ensures Replaced(old(to.held), to.held, base, old(put[..n]), put[..n], ds, i, ok, to.strays - old(to.strays), leaked)
    ensures ok ==> length <= to.held[put[i]].memsize && to.held[put[i]].load.control == Zeros(CONTROL_INTS)
    ensures to.strays != old(to.strays) ==> length > to.eventSize
  {
    ghost var h0, ps := to.held, put[..n];
    var status := to.New(length, put, i);
    ok := status == OK;
    assert put[..n] == ps[i := put[i]];
    if to.strays == old(to.strays) && !ok {
      leaked := {};
      assert put[..n] == ps;
      NotReplaced(h0, base, ps, ds, i);
    } else {
      leaked := if ok then {} else {ps[i]};
      ReplacedBy(h0, to.held, base, ps, ds, i, put[i]);
    }
  }

  lemma ReplacedKeepsFilled(h0: map<nat, Msg>, h1: map<nat, Msg>, from: map<nat, Msg>, base: set<nat>,
                            ps: seq<nat>, qs: seq<nat>, ds: seq<nat>, i: nat, ok: bool, stray: nat, leaked: set<nat>,
                            gs: seq<nat>, offset: nat, cfg: Config)
    requires FilledUpTo(h0, from, ps, gs, offset, i, cfg) && Replaced(h0, h1, base, ps, qs, ds, i, ok, stray, leaked)
    ensures CarryUpTo(h1, from, qs, gs, offset, i, cfg)
    ensures ok && h1[qs[i]].load.control == Zeros(CONTROL_INTS) ==> FilledUpTo(h1, from, qs, gs, offset, i, cfg)
  {
    forall k | 0 <= k < i ensures Carries(h1, from, qs[k], gs[offset + k], cfg) {
      assert Carries(h0, from, ps[k], gs[offset + k], cfg);
    }
  }

  lemma CopiedFills(h0: map<nat, Msg>, h1: map<nat, Msg>, from: map<nat, Msg>, ps: seq<nat>,
                    gs: seq<nat>, offset: nat, i: nat, cfg: Config)
    requires FilledUpTo(h0, from, ps, gs, offset, i, cfg) && i < |ps| && Distinct(ps)
    requires ps[i] in h1 && h1 == h0[ps[i] := h1[ps[i]]]
    ensures CarryUpTo(h1, from, ps, gs, offset, i, cfg)
    ensures Carries(h1, from, ps[i], gs[offset + i], cfg) ==> FilledUpTo(h1, from, ps, gs, offset, i + 1, cfg)
  {
    assert forall k :: 0 <= k < |ps| && k != i ==> ps[k] != ps[i];
    forall k | 0 <= k < i ensures Carries(h1, from, ps[k], gs[offset + k], cfg) {
      assert Carries(h0, from, ps[k], gs[offset + k], cfg);
    }
  }

  /** The arrays and events of the innermost loop, before it fills new event i. */
  ghost predicate Filling(to: map<nat, Msg>, from: map<nat, Msg>, base: set<nat>, ps: seq<nat>, ds: seq<nat>,
                          gs: seq<nat>, offset: nat, i: nat, cfg: Config) {
    Holds(to.Keys, base, ps, ds, {}) && FilledUpTo(to, from, ps, gs, offset, i, cfg)
  }

  /** And when it gives up there. */
  ghost predicate GivenUp(to: map<nat, Msg>, from: map<nat, Msg>, base: set<nat>, ps: seq<nat>, ds: seq<nat>,
                          gs: seq<nat>, offset: nat, i: nat, cfg: Config, leaked: set<nat>) {
    Holds(to.Keys, base, ps, ds, leaked) && CarryUpTo(to, from, ps, gs, offset, i, cfg)
  }

  /** Set the new event i aside, which is too small, and ask for a larger one. */
  method SetAside(from: Port, to: Port, cfg: Config, g: nat, put: array<nat>, dump: array<nat>,
                  n: nat, d: nat, i: nat, ghost gs: seq<nat>, ghost prev: nat, ghost base: set<nat>)
    returns (ok: bool, ghost leaked: set<nat>)
    requires from != to && to.Valid() && put != dump && i < n <= put.Length && d < dump.Length
    requires Filling(to.held, from.held, base, put[..n], dump[..d], gs, prev, i, cfg) && g == gs[i + prev]
    modifies to`held, to`strays, put, dump
    ensures to.Valid() && to.strays >= old(to.strays) && |leaked| == to.strays - old(to.strays)
    ensures ok ==> leaked == {} && Filling(to.held, from.held, base, put[..n], dump[..d + 1], gs, prev, i, cfg)
    ensures ok ==> from.held[g].load.length <= to.held[put[i]].memsize
    ensures !ok ==> GivenUp(to.held, from.held, base, put[..n], dump[..d], gs, prev, i, cfg, leaked)
    ensures to.strays != old(to.strays) ==> from.held[g].load.length > to.eventSize
  {
    ghost var ps, ds, h0 := put[..n], dump[..d], to.held;
    var length := from.held[g].load.length;
    dump[d] := put[i];
    assert dump[..d + 1] == ds + [ps[i]] && dump[..d] == ds;
    ok, leaked := Replace(to, length, put, n, i, ds, base);
    ghost var qs := put[..n];
    assert qs[i] == put[i];
    AsideKeepsFilling(h0, to.held, from.held, base, ps, qs, ds, i, ok, to.strays - old(to.strays), leaked, gs, prev, cfg);
  }

  lemma AsideKeepsFilling(h0: map<nat, Msg>, h1: map<nat, Msg>, from: map<nat, Msg>, base: set<nat>,
                          ps: seq<nat>, qs: seq<nat>, ds: seq<nat>, i: nat, ok: bool, stray: nat, leaked: set<nat>,
                          gs: seq<nat>, offset: nat, cfg: Config)
    requires Filling(h0, from, base, ps, ds, gs, offset, i, cfg) && Replaced(h0, h1, base, ps, qs, ds, i, ok, stray, leaked)
    requires ok ==> h1[qs[i]].load.control == Zeros(CONTROL_INTS)
    ensures |leaked| == stray && (ok ==> leaked == {} && Filling(h1, from, base, qs, ds + [ps[i]], gs, offset, i, cfg))
    ensures !ok ==> GivenUp(h1, from, base, qs, ds, gs, offset, i, cfg, leaked)
  {
    ReplacedKeepsFilled(h0, h1, from, base, ps, qs, ds, i, ok, stray, leaked, gs, offset, cfg);
  }

  /** Why the innermost loop ends at event k of those got: its data cannot be swapped; or
      it needs a larger event. And only if that must be a temp event may one be kept. */
  ghost predicate Reason(from: map<nat, Msg>, gs: seq<nat>, k: nat, cfg: Config, size: nat, outcome: Outcome, leaked: set<nat>) {
    && (outcome == NotSwapped ==> k < |gs| && gs[k] in from && Fails(cfg, from[gs[k]].load))
    && (leaked != {} ==> outcome == TooSmall && k < |gs| && gs[k] in from && from[gs[k]].load.length > size)
  }

  /** How it ends there. */
  ghost predicate Ended(to: map<nat, Msg>, from: map<nat, Msg>, base: set<nat>, ps: seq<nat>, ds: seq<nat>,
                        gs: seq<nat>, offset: nat, i: nat, cfg: Config, size: nat, outcome: Outcome, leaked: set<nat>) {
    GivenUp(to, from, base, ps, ds, gs, offset, i, cfg, leaked) && Reason(from, gs, offset + i, cfg, size, outcome, leaked)
  }

  /** If the event to carry does not fit new event i, get a larger one and set the new
      event aside. */
  method MakeRoom(from: Port, to: Port, cfg: Config, g: nat, put: array<nat>, dump: array<nat>,
                  n: nat, d0: nat, i: nat, ghost gs: seq<nat>, ghost prev: nat, ghost base: set<nat>)
    returns (ok: bool, d: nat, ghost leaked: set<nat>)
    requires from != to && to.Valid() && put != dump && i < n <= put.Length && d0 < dump.Length
    requires Filling(to.held, from.held, base, put[..n], dump[..d0], gs, prev, i, cfg) && g == gs[i + prev]
    modifies to`held, to`strays, put, dump
    ensures to.Valid() && to.strays >= old(to.strays) && |leaked| == to.strays - old(to.strays)
    ensures d0 <= d <= d0 + 1 && d <= dump.Length
    ensures ok ==> leaked == {} && Filling(to.held, from.held, base, put[..n], dump[..d], gs, prev, i, cfg)
    ensures ok ==> from.held[g].load.length <= to.held[put[i]].memsize
    ensures !ok ==> d > 0 && GivenUp(to.held, from.held, base, put[..n], dump[..d - 1], gs, prev, i, cfg, leaked)
    ensures to.strays != old(to.strays) ==> from.held[g].load.length > to.eventSize
  {
    d, leaked, ok := d0, {}, true;
    assert put[..n][i] == put[i];
    if from.held[g].load.length > to.held[put[i]].memsize {
      ok, leaked := SetAside(from, to, cfg, g, put, dump, n, d, i, gs, prev, base);
      d := d + 1;
    }
  }

  method FillFrom(from: Port, to: Port, cfg: Config, g: nat, p: nat, ghost ps: seq<nat>, ghost ds: seq<nat>,
                  ghost gs: seq<nat>, ghost prev: nat, ghost i: nat, ghost base: set<nat>) returns (copied: bool)
    requires from != to && to.Valid() && cfg.Valid()
    requires Filling(to.held, from.held, base, ps, ds, gs, prev, i, cfg) && i < |ps| && p == ps[i] && g == gs[prev + i]
    requires from.held[g].load.length <= to.held[p].memsize
    modifies to`held
    ensures to.Valid()
    ensures copied ==> Filling(to.held, from.held, base, ps, ds, gs, prev, i + 1, cfg)
    ensures GivenUp(to.held, from.held, base, ps, ds, gs, prev, i, cfg, {})
    ensures !copied ==> Fails(cfg, from.held[g].load)
  {
    ghost var h := to.held;
    copied := CopyEvent(from, to, cfg, g, p);
    DistinctParts(ps, ds);
    CopiedFills(h, to.held, from.held, ps, gs, prev, i, cfg);
    assert to.held.Keys == h.Keys;
  }

  /** Fill new event i, as the body of the innermost loop does. */
  method FillOne(from: Port, to: Port, cfg: Config, get: array<nat>, numRead: nat, put: array<nat>, dump: array<nat>,
                 n: nat, d0: nat, i: nat, prev: nat, ghost base: set<nat>)
    returns (outcome: Outcome, d: nat, ghost leaked: set<nat>)
    requires from != to && to.Valid() && cfg.Valid() && get != put && get != dump && put != dump
    requires numRead <= get.Length && i < n <= put.Length && d0 < dump.Length
    requires Filling(to.held, from.held, base, put[..n], dump[..d0], get[..numRead], prev, i, cfg)
    modifies to`held, to`strays, put, dump
    ensures to.Valid() && to.strays >= old(to.strays) && |leaked| == to.strays - old(to.strays)
    ensures d0 <= d <= d0 + 1 && d <= dump.Length && (outcome == TooSmall ==> d > 0)
    ensures outcome == Filled ==> Filling(to.held, from.held, base, put[..n], dump[..d], get[..numRead], prev, i + 1, cfg)
    ensures outcome != TooSmall ==> leaked == {}
    ensures Ended(to.held, from.held, base, put[..n], dump[..if outcome == TooSmall then d - 1 else d],
                  get[..numRead], prev, i, cfg, to.eventSize, outcome, leaked)
  {
    ghost var gs := get[..numRead];
    var g := get[i + prev];
    assert g == gs[i + prev];
    var ok;
    ok, d, leaked := MakeRoom(from, to, cfg, g, put, dump, n, d0, i, gs, prev, base);
    if !ok { return TooSmall, d, leaked; }
    ghost var qs, ds := put[..n], dump[..d];
    assert gs[prev + i] == g && qs[i] == put[i];
    var copied := FillFrom(from, to, cfg, g, put[i], qs, ds, gs, prev, i, base);
    outcome := if copied then Filled else NotSwapped;
  }

  // ----- leaving -----

  /** The payloads that n new events carry, from offset on in what was got. */
  function Carried(cfg: Config, got: seq<Payload>, offset: nat, n: nat): (r: seq<Payload>)
    requires offset + n <= |got|
    ensures |r| == n
  {
    seq(n, k requires 0 <= k < n => Convert(cfg, got[offset + k]))
  }

  /** None of those n failed. */
  predicate CleanFrom(cfg: Config, got: seq<Payload>, offset: nat, n: nat) {
    forall k :: offset <= k < offset + n && k < |got| ==> !Fails(cfg, got[k])
  }

  lemma Parts(h: set<nat>, base: set<nat>, ps: seq<nat>, ds: seq<nat>, leaked: set<nat>, i: nat)
    requires Holds(h, base, ps, ds, leaked) && i <= |ps|
    ensures Distinct(ps[..i]) && Distinct(ps[i..]) && Distinct(ds)
    ensures Elements(ps[..i]) <= h && Elements(ps[i..]) <= h - Elements(ps[..i])
    ensures Elements(ds) <= h - Elements(ps[..i]) - Elements(ps[i..])
    ensures h - Elements(ps[..i]) - Elements(ps[i..]) - Elements(ds) == base + leaked
  {
    DistinctParts(ps, ds);
    DistinctParts(ps[..i], ps[i..]);
    assert ps == ps[..i] + ps[i..];
    forall e | e in ds ensures e !in ps && e in h {
      var j :| 0 <= j < |ds| && ds[j] == e;
      assert e in Elements(ds);
    }
    forall e ensures e in ps <==> e in ps[..i] || e in ps[i..] { }
    assert forall e :: e in ps ==> e in Elements(ps) && e !in base && e !in leaked;
    assert forall e :: e in ds ==> e !in base && e !in leaked;
    assert forall e :: e in ps[..i] ==> e !in ps[i..];
  }

  lemma CarryIs(to: map<nat, Msg>, from: map<nat, Msg>, ps: seq<nat>, gs: seq<nat>, offset: nat, i: nat, cfg: Config)
    requires CarryUpTo(to, from, ps, gs, offset, i, cfg)
    ensures LoadsOf(to, ps[..i]) == Carried(cfg, LoadsOf(from, gs), offset, i)
    ensures CleanFrom(cfg, LoadsOf(from, gs), offset, i)
  {
    forall k | 0 <= k < i
      ensures to[ps[k]].load == Convert(cfg, from[gs[offset + k]].load) && !Fails(cfg, from[gs[offset + k]].load)
    {
      assert Carries(to, from, ps[k], gs[offset + k], cfg);
    }
    assert LoadsOf(to, ps[..i]) == Carried(cfg, LoadsOf(from, gs), offset, i);
    forall k | offset <= k < offset + i ensures !Fails(cfg, LoadsOf(from, gs)[k]) {
      assert Carries(to, from, ps[k - offset], gs[offset + (k - offset)], cfg);
    }
  }

  /** The events got are held besides those of before; got is what they carry. */
  ghost predicate Reading(from: map<nat, Msg>, fromBase: set<nat>, gets: seq<nat>, got: seq<Payload>) {
    && Holds(from.Keys, fromBase, gets, [], {})
    && (forall k :: 0 <= k < |gets| ==> gets[k] in from)
    && got == LoadsOf(from, gets)
  }

  lemma LeftWith(held: set<nat>, base: set<nat>, failed: nat, leaked: set<nat>)
    requires base !! leaked && (failed == 0 ==> held == base + leaked)
    ensures Left(held, base, failed, |leaked|)
  {
  }

  /** Give back what was read from the "from" system. */
  method Return(from: Port, gets: seq<nat>, ghost got: seq<Payload>, ghost fromBase: set<nat>) returns (status: Status)
    requires from.Valid() && Reading(from.held, fromBase, gets, got)
    modifies from`held, from`sent, from`failures
    ensures from.Valid()
    ensures if status == OK then from.held.Keys == fromBase && from.failures == old(from.failures)
            else from.failures == old(from.failures) + 1
  {
    Parts(from.held.Keys, fromBase, gets, [], {}, |gets|);
    assert gets[..|gets|] == gets && gets[|gets|..] == [];
    status := from.Put(gets);
  }

  method PutBack(from: Port, gets: seq<nat>, ghost got: seq<Payload>, ghost fromBase: set<nat>)
    requires from.Valid() && Reading(from.held, fromBase, gets, got)
    modifies from`held, from`sent, from`failures
    ensures from.Valid() && from.failures >= old(from.failures)
    ensures Left(from.held.Keys, fromBase, from.failures - old(from.failures), 0)
  {
    var status := Return(from, gets, got, fromBase);
    if status == OK { LeftWith(from.held.Keys, fromBase, 0, {}); }
  }

  method PutSome(to: Port, puts: seq<nat>, ghost loads: seq<Payload>) returns (carried: nat)
    requires to.Valid() && Distinct(puts) && (forall k :: 0 <= k < |puts| ==> puts[k] in to.held) && loads == LoadsOf(to.held, puts)
    modifies to`held, to`sent, to`failures
    ensures to.Valid() && to.failures >= old(to.failures) && (carried == |puts| || carried == 0)
    ensures to.held == old(to.held) || to.held == old(to.held) - Elements(puts)
    ensures to.failures == old(to.failures) ==> to.held == old(to.held) - Elements(puts)
    ensures to.sent == old(to.sent) + loads[..carried]
  {
    var status := to.Put(puts);
    if status == OK {
      carried := |puts|;
      assert loads[..carried] == loads;
    } else {
      carried := 0;
      assert loads[..0] == [];
    }
  }

  /** Give back the events of one list unused. */
  method DumpThese(to: Port, es: seq<nat>)
    requires to.Valid() && Distinct(es) && Elements(es) <= to.held.Keys
    modifies to`held, to`failures
    ensures to.Valid() && to.failures >= old(to.failures)
    ensures to.held.Keys == old(to.held.Keys) || to.held.Keys == old(to.held.Keys) - Elements(es)
    ensures to.failures == old(to.failures) ==> to.held.Keys == old(to.held.Keys) - Elements(es)
  {
    assert forall k :: 0 <= k < |es| ==> es[k] in Elements(es);
    var status := to.Dump(es);
  }

  method DumpBoth(to: Port, es: seq<nat>, ds: seq<nat>)
    requires to.Valid() && Distinct(es) && Distinct(ds)
    requires Elements(es) <= to.held.Keys && Elements(ds) <= to.held.Keys - Elements(es)
    modifies to`held, to`failures
    ensures to.Valid() && to.failures >= old(to.failures)
    ensures to.failures == old(to.failures) ==> to.held.Keys == old(to.held.Keys) - Elements(es) - Elements(ds)
  {
    DumpThese(to, es);
    DumpThese(to, ds);
  }

  /** Give back the first i new events filled, and all the others unused. */
  method HandBack(to: Port, puts: seq<nat>, dumps: seq<nat>, i: nat, ghost loads: seq<Payload>, ghost base: set<nat>, ghost leaked: set<nat>)
    returns (carried: nat)
    requires to.Valid() && i <= |puts| && Holds(to.held.Keys, base, puts, dumps, leaked)
    requires (forall k :: 0 <= k < i ==> puts[k] in to.held) && loads == LoadsOf(to.held, puts[..i])
    modifies to`held, to`sent, to`failures
    ensures to.Valid() && to.failures >= old(to.failures)
    ensures Left(to.held.Keys, base, to.failures - old(to.failures), |leaked|)
    ensures (carried == i || carried == 0) && to.sent == old(to.sent) + loads[..carried]
  {
    Parts(to.held.Keys, base, puts, dumps, leaked, i);
    carried := PutSome(to, puts[..i], loads);
    DumpBoth(to, puts[i..], dumps);
    LeftWith(to.held.Keys, base, to.failures - old(to.failures), leaked);
  }

  lemma ReasonIsGot(from: map<nat, Msg>, gs: seq<nat>, k: nat, cfg: Config, size: nat, outcome: Outcome, leaked: set<nat>)
    requires Reason(from, gs, k, cfg, size, outcome, leaked) && forall i :: 0 <= i < |gs| ==> gs[i] in from
    ensures outcome == NotSwapped ==> k < |gs| && Fails(cfg, LoadsOf(from, gs)[k])
    ensures Fit(LoadsOf(from, gs), size) ==> leaked == {}
  {
    if k < |gs| { assert LoadsOf(from, gs)[k] == from[gs[k]].load; }
  }

  /** A round that starts at prev ends at event k, whose data cannot be swapped: those before
      have been copied, and put or not. */
  predicate EndsAt(cfg: Config, got: seq<Payload>, prev: nat, carried: nat, k: nat) {
    prev <= k < |got| && Fails(cfg, got[k]) && CleanFrom(cfg, got, prev, k - prev) && (carried == k - prev || carried == 0)
  }

  /** Give back everything, on the way out: to the "from" system what was read from it,
      and to the "to" system the first i new events and, unused, all the others. */
  method GiveUp(from: Port, to: Port, gets: seq<nat>, puts: seq<nat>, dumps: seq<nat>, i: nat, outcome: Outcome,
                ghost cfg: Config, ghost got: seq<Payload>, ghost prev: nat,
                ghost base: set<nat>, ghost fromBase: set<nat>, ghost leaked: set<nat>)
    returns (status: Status, carried: nat)
    requires Reading(from.held, fromBase, gets, got) && from != to && from.Valid() && to.Valid() && i <= |puts|
    requires Ended(to.held, from.held, base, puts, dumps, gets, prev, i, cfg, to.eventSize, outcome, leaked)
    requires outcome != Filled
    modifies from`held, from`sent, from`failures, to`held, to`sent, to`failures
    ensures from.Valid() && to.Valid() && from.failures >= old(from.failures) && to.failures >= old(to.failures)
    ensures Left(from.held.Keys, fromBase, from.failures - old(from.failures), 0)
    ensures Left(to.held.Keys, base, to.failures - old(to.failures), |leaked|)
    ensures carried <= i && prev + carried <= |got| && to.sent == old(to.sent) + Carried(cfg, got, prev, carried)
    ensures CleanFrom(cfg, got, prev, carried)
    ensures (status == OK ==> EndsAt(cfg, got, prev, carried, prev + i)) && (Fit(got, to.eventSize) ==> leaked == {})
  {
    ReasonIsGot(from.held, gets, prev + i, cfg, to.eventSize, outcome, leaked);
    CarryIs(to.held, from.held, puts, gets, prev, i, cfg);
    PutBack(from, gets, got, fromBase);
    carried := HandBack(to, puts, dumps, i, Carried(cfg, got, prev, i), base, leaked);
    assert Carried(cfg, got, prev, i)[..carried] == Carried(cfg, got, prev, carried);
    status := if outcome == TooSmall then ERROR else OK;
  }

  // ----- one round: ask for new events, fill them and put them -----

  /** The innermost loop. */
  method Fill(from: Port, to: Port, cfg: Config, get: array<nat>, numRead: nat, put: array<nat>, dump: array<nat>,
              n: nat, prev: nat, ghost base: set<nat>)
    returns (outcome: Outcome, i: nat, d: nat, ghost leaked: set<nat>)
    requires from != to && to.Valid() && cfg.Valid() && get != put && get != dump && put != dump
    requires numRead <= get.Length && n <= put.Length && n <= dump.Length
    requires Filling(to.held, from.held, base, put[..n], [], get[..numRead], prev, 0, cfg)
    modifies to`held, to`strays, put, dump
    ensures to.Valid() && to.strays >= old(to.strays) && |leaked| == to.strays - old(to.strays)
    ensures i <= n && d <= n && (outcome == TooSmall ==> d > 0)
    ensures outcome == Filled ==> i == n && Filling(to.held, from.held, base, put[..n], dump[..d], get[..numRead], prev, n, cfg)
    ensures outcome != TooSmall ==> leaked == {}
    ensures outcome != Filled ==> i < n
    ensures outcome != Filled ==>
              Ended(to.held, from.held, base, put[..n], dump[..if outcome == TooSmall then d - 1 else d],
                    get[..numRead], prev, i, cfg, to.eventSize, outcome, leaked)
  {
    outcome, i, d, leaked := Filled, 0, 0, {};
    assert dump[..0] == [];
    while i < n
      invariant i <= n && d <= i && outcome == Filled && leaked == {} && to.Valid() && to.strays == old(to.strays)
      invariant Filling(to.held, from.held, base, put[..n], dump[..d], get[..numRead], prev, i, cfg)
    {
      outcome, d, leaked := FillOne(from, to, cfg, get, numRead, put, dump, n, d, i, prev, base);
      if outcome != Filled { return; }
      i := i + 1;
    }
  }

  /** Blank new events, ready to be filled. */
  lemma ReadyToFill(to0: map<nat, Msg>, to: map<nat, Msg>, from: map<nat, Msg>, ps: seq<nat>, gs: seq<nat>, offset: nat, cfg: Config)
    requires Added(to0, to, ps) && offset + |ps| <= |gs|
    requires forall k :: 0 <= k < |gs| ==> gs[k] in from
    requires forall k :: 0 <= k < |ps| ==> ps[k] in to && to[ps[k]].load.control == Zeros(CONTROL_INTS)
    ensures Filling(to, from, to0.Keys, ps, [], gs, offset, 0, cfg)
  {
    assert ps + [] == ps;
  }

  method PutAndDump(to: Port, puts: seq<nat>, dumps: seq<nat>, ghost loads: seq<Payload>, ghost base: set<nat>)
    returns (status: Status, carried: nat)
    requires to.Valid() && Holds(to.held.Keys, base, puts, dumps, {})
    requires (forall k :: 0 <= k < |puts| ==> puts[k] in to.held) && loads == LoadsOf(to.held, puts)
    modifies to`held, to`sent, to`failures
    ensures to.Valid()
    ensures status == OK ==> carried == |puts| && to.held.Keys == base && to.failures == old(to.failures)
    ensures status != OK ==> to.failures > old(to.failures)
    ensures carried <= |puts| && to.sent == old(to.sent) + loads[..carried]
  {
    Parts(to.held.Keys, base, puts, dumps, {}, |puts|);
    assert puts[..|puts|] == puts && puts[|puts|..] == [] && loads[..|puts|] == loads;
    assert forall k :: 0 <= k < |puts| ==> puts[k] in Elements(puts);
    assert forall k :: 0 <= k < |dumps| ==> dumps[k] in Elements(dumps);
    status := to.Put(puts);
    if status != OK {
      var ignored := to.Dump(dumps);
      return status, 0;
    }
    carried := |puts|;
    if |dumps| > 0 { status := to.Dump(dumps); }
  }

  /** The last part of a round: put the new events, dump the ones set aside. */
  method PutRound(from: Port, to: Port, gets: seq<nat>, puts: seq<nat>, dumps: seq<nat>,
                  ghost cfg: Config, ghost got: seq<Payload>, ghost prev: nat, ghost base: set<nat>, ghost fromBase: set<nat>)
    returns (status: Status, carried: nat)
    requires from != to && from.Valid() && to.Valid() && Reading(from.held, fromBase, gets, got)
    requires Filling(to.held, from.held, base, puts, dumps, gets, prev, |puts|, cfg)
    modifies from`held, from`sent, from`failures, to`held, to`sent, to`failures
    ensures from.Valid() && to.Valid() && from.failures >= old(from.failures) && to.failures >= old(to.failures)
    ensures status == OK ==> carried == |puts| && to.held.Keys == base && to.failures == old(to.failures)
    ensures status == OK ==> from.held == old(from.held) && from.failures == old(from.failures)
    ensures status != OK ==> to.failures > old(to.failures)
    ensures status != OK ==> Left(from.held.Keys, fromBase, from.failures - old(from.failures), 0)
    ensures carried <= |puts| && prev + carried <= |got| && to.sent == old(to.sent) + Carried(cfg, got, prev, carried)
    ensures CleanFrom(cfg, got, prev, carried)
  {
    CarryIs(to.held, from.held, puts, gets, prev, |puts|, cfg);
    assert puts[..|puts|] == puts;
    status, carried := PutAndDump(to, puts, dumps, Carried(cfg, got, prev, |puts|), base);
    assert Carried(cfg, got, prev, |puts|)[..carried] == Carried(cfg, got, prev, carried);
    if status != OK { PutBack(from, gets, got, fromBase); }
  }

  /** Ask for new events. If there are none, give back what was read. */
  method Request(from: Port, to: Port, num: nat, get: array<nat>, numRead: nat, put: array<nat>,
                 ghost cfg: Config, ghost got: seq<Payload>, ghost prev: nat, ghost fromBase: set<nat>)
    returns (status: Status, n: nat)
    requires from != to && from.Valid() && to.Valid() && get != put && numRead <= get.Length && num <= put.Length
    requires Reading(from.held, fromBase, get[..numRead], got) && prev + num <= numRead
    modifies from`held, from`sent, from`failures, to`held, to`strays, put
    ensures from.Valid() && to.Valid() && from.failures >= old(from.failures) && n <= put.Length
    ensures status == OK ==> 1 <= n <= num && from.held == old(from.held) && from.failures == old(from.failures)
    ensures status == OK ==> to.strays == old(to.strays)
    ensures status == OK ==> Filling(to.held, from.held, old(to.held.Keys), put[..n], [], get[..numRead], prev, 0, cfg)
    ensures status == OK ==> forall k :: 0 <= k < n ==> put[k] in to.held && to.held[put[k]] == to.NewMsg(from.eventSize)
    ensures status != OK ==> Left(from.held.Keys, fromBase, from.failures - old(from.failures), 0)
    ensures status != OK ==> Left(to.held.Keys, old(to.held.Keys), 0, to.strays - old(to.strays))
    ensures to.strays != old(to.strays) ==> from.eventSize > to.eventSize
  {
    ghost var h0 := to.held;
    status, n := to.NewMany(num, from.eventSize, put);
    if status != OK {
      PutBack(from, get[..numRead], got, fromBase);
    } else {
      assert forall k :: 0 <= k < n ==> put[..n][k] == put[k] && put[k] in Elements(put[..n]);
      ReadyToFill(h0, to.held, from.held, put[..n], get[..numRead], prev, cfg);
    }
  }

  /** Fill the new events and put them, or give up. */
  method FillAndPut(from: Port, to: Port, cfg: Config, get: array<nat>, numRead: nat, put: array<nat>, dump: array<nat>,
                    n: nat, prev: nat, ghost got: seq<Payload>, ghost base: set<nat>, ghost fromBase: set<nat>)
    returns (status: Status, going: bool, carried: nat, ghost stopped: Option<nat>)
    requires from != to && from.Valid() && to.Valid() && cfg.Valid() && get != put && get != dump && put != dump
    requires numRead <= get.Length && n <= put.Length && n <= dump.Length
    requires Reading(from.held, fromBase, get[..numRead], got)
    requires Filling(to.held, from.held, base, put[..n], [], get[..numRead], prev, 0, cfg)
    modifies from`held, from`sent, from`failures, to`held, to`sent, to`failures, to`strays, put, dump
    ensures from.Valid() && to.Valid() && from.failures >= old(from.failures) && to.failures >= old(to.failures)
    ensures carried <= n && prev + carried <= |got| && to.sent == old(to.sent) + Carried(cfg, got, prev, carried)
    ensures going ==> carried == n && status == OK && to.held.Keys == base
    ensures going ==> to.strays == old(to.strays) && to.failures == old(to.failures)
    ensures going ==> from.held == old(from.held) && from.failures == old(from.failures)
    ensures !going ==> Left(from.held.Keys, fromBase, from.failures - old(from.failures), 0)
    ensures !going ==> Left(to.held.Keys, base, to.failures - old(to.failures), to.strays - old(to.strays))
    ensures stopped.Some? <==> !going && status == OK
    ensures stopped.Some? ==> carried < n && EndsAt(cfg, got, prev, carried, stopped.value)
    ensures Fit(got, to.eventSize) ==> to.strays == old(to.strays)
    ensures CleanFrom(cfg, got, prev, carried)
  {
    var outcome, i, d;
    ghost var leaked;
    outcome, i, d, leaked := Fill(from, to, cfg, get, numRead, put, dump, n, prev, base);
    if outcome == Filled {
      status, going, carried := PutFilled(from, to, get[..numRead], put[..n], dump[..d], cfg, got, prev, base, fromBase);
      stopped := None;
    } else {
      d := if outcome == TooSmall then d - 1 else d;
      status, going, carried, stopped :=
        NotFilled(from, to, get[..numRead], put[..n], dump[..d], i, outcome, cfg, got, prev, base, fromBase, leaked, old(to.strays));
    }
  }

  method NotFilled(from: Port, to: Port, gets: seq<nat>, puts: seq<nat>, dumps: seq<nat>, i: nat, outcome: Outcome,
                   ghost cfg: Config, ghost got: seq<Payload>, ghost prev: nat,
                   ghost base: set<nat>, ghost fromBase: set<nat>, ghost leaked: set<nat>, ghost strays: nat)
    returns (status: Status, going: bool, carried: nat, ghost stopped: Option<nat>)
    requires Reading(from.held, fromBase, gets, got) && from != to && from.Valid() && to.Valid() && i < |puts|
    requires Ended(to.held, from.held, base, puts, dumps, gets, prev, i, cfg, to.eventSize, outcome, leaked)
    requires outcome != Filled && |leaked| == to.strays - strays
    modifies from`held, from`sent, from`failures, to`held, to`sent, to`failures
    ensures from.Valid() && to.Valid() && from.failures >= old(from.failures) && to.failures >= old(to.failures) && !going
    ensures Left(from.held.Keys, fromBase, from.failures - old(from.failures), 0)
    ensures Left(to.held.Keys, base, to.failures - old(to.failures), to.strays - strays)
    ensures carried < |puts| && prev + carried <= |got| && to.sent == old(to.sent) + Carried(cfg, got, prev, carried)
    ensures CleanFrom(cfg, got, prev, carried)
    ensures stopped.Some? <==> status == OK
    ensures stopped.Some? ==> EndsAt(cfg, got, prev, carried, stopped.value)
    ensures Fit(got, to.eventSize) ==> to.strays == strays
  {
    going := false;
    status, carried := GiveUp(from, to, gets, puts, dumps, i, outcome, cfg, got, prev, base, fromBase, leaked);
    stopped := if status == OK then Some(prev + i) else None;
  }

  method PutFilled(from: Port, to: Port, gets: seq<nat>, puts: seq<nat>, dumps: seq<nat>,
                   ghost cfg: Config, ghost got: seq<Payload>, ghost prev: nat, ghost base: set<nat>, ghost fromBase: set<nat>)
    returns (status: Status, going: bool, carried: nat)
    requires from != to && from.Valid() && to.Valid() && Reading(from.held, fromBase, gets, got)
    requires Filling(to.held, from.held, base, puts, dumps, gets, prev, |puts|, cfg)
    modifies from`held, from`sent, from`failures, to`held, to`sent, to`failures
    ensures from.Valid() && to.Valid() && from.failures >= old(from.failures) && to.failures >= old(to.failures)
    ensures going <==> status == OK
    ensures going ==> carried == |puts| && to.held.Keys == base && to.failures == old(to.failures)
    ensures going ==> from.held == old(from.held) && from.failures == old(from.failures)
    ensures !going ==> Left(from.held.Keys, fromBase, from.failures - old(from.failures), 0)
    ensures !going ==> Left(to.held.Keys, base, to.failures - old(to.failures), 0)
    ensures carried <= |puts| && prev + carried <= |got| && to.sent == old(to.sent) + Carried(cfg, got, prev, carried)
    ensures CleanFrom(cfg, got, prev, carried)
  {
    status, carried := PutRound(from, to, gets, puts, dumps, cfg, got, prev, base, fromBase);
    going := status == OK;
    if !going { LeftUnequal(to.held.Keys, base, to.failures - old(to.failures)); }
  }

  lemma LeftUnequal(held: set<nat>, base: set<nat>, failed: int)
    requires failed > 0
    ensures Left(held, base, failed, 0)
  {
  }

  /** The new events, of the ordinary size of "from", need be no temp events, nor do larger
      ones: nothing can fail for want of temp events. */
  predicate Roomy(from: Port, to: Port, got: seq<Payload>) {
    from.eventSize <= to.eventSize && Fit(got, to.eventSize)
  }

  /** One turn of the middle loop. */
  method Round(from: Port, to: Port, cfg: Config, get: array<nat>, numRead: nat, totalNew: nat, prev: nat,
               put: array<nat>, dump: array<nat>, ghost got: seq<Payload>, ghost fromBase: set<nat>)
    returns (status: Status, going: bool, n: nat, carried: nat, ghost stopped: Option<nat>)
    requires from != to && from.Valid() && to.Valid() && cfg.Valid() && get != put && get != dump && put != dump
    requires numRead <= get.Length && numRead <= put.Length && numRead <= dump.Length
    requires prev <= totalNew < numRead && Reading(from.held, fromBase, get[..numRead], got)
    modifies from`held, from`sent, from`failures, to`held, to`sent, to`failures, to`strays, put, dump
    ensures from.Valid() && to.Valid() && from.failures >= old(from.failures) && to.failures >= old(to.failures)
    ensures carried <= numRead - totalNew && carried <= cfg.chunkTo
    ensures to.sent == old(to.sent) + Carried(cfg, got, prev, carried)
    ensures going ==> 1 <= n == carried && status == OK && to.held.Keys == old(to.held.Keys)
    ensures going ==> to.strays == old(to.strays) && to.failures == old(to.failures)
    ensures going ==> from.held == old(from.held) && from.failures == old(from.failures)
    ensures !going ==> Left(from.held.Keys, fromBase, from.failures - old(from.failures), 0)
    ensures !going ==> Left(to.held.Keys, old(to.held.Keys), to.failures - old(to.failures), to.strays - old(to.strays))
    ensures stopped.Some? <==> !going && status == OK
    ensures stopped.Some? ==> carried < numRead - totalNew && EndsAt(cfg, got, prev, carried, stopped.value)
    ensures Roomy(from, to, got) ==> to.strays == old(to.strays)
    ensures CleanFrom(cfg, got, prev, carried)
  {
    var num := if numRead - totalNew < cfg.chunkTo then numRead - totalNew else cfg.chunkTo;
    going, carried, stopped := false, 0, None;
    ghost var base := to.held.Keys;
    status, n := Request(from, to, num, get, numRead, put, cfg, got, prev, fromBase);
    if status == OK {
      status, going, carried, stopped := FillAndPut(from, to, cfg, get, numRead, put, dump, n, prev, got, base, fromBase);
    }
  }

  // ----- one batch: what is got at once -----

  function Sum(ns: seq<nat>): nat {
    if |ns| == 0 then 0 else Sum(ns[..|ns| - 1]) + ns[|ns| - 1]
  }

  /** Where a round that follows the rounds ns starts to copy: after as many events as
      the round just before it carried. */
  function Offset(ns: seq<nat>): nat {
    if |ns| == 0 then 0 else ns[|ns| - 1]
  }

  lemma OffsetBelow(ns: seq<nat>)
    ensures Offset(ns) <= Sum(ns)
  {
  }

  /** What a batch carries whose rounds carry ns events each. */
  function Sent(cfg: Config, got: seq<Payload>, ns: seq<nat>): (r: seq<Payload>)
    requires Sum(ns) <= |got|
    ensures |r| == Sum(ns)
    decreases |ns|
  {
    if |ns| == 0 then []
    else
      var front := ns[..|ns| - 1];
      OffsetBelow(front);
      Sent(cfg, got, front) + Carried(cfg, got, Offset(front), ns[|ns| - 1])
  }

  lemma OneRound(cfg: Config, got: seq<Payload>, ns: seq<nat>, n: nat)
    requires Sum(ns) + n <= |got|
    ensures Sum(ns + [n]) == Sum(ns) + n && Offset(ns) + n <= |got|
    ensures Sent(cfg, got, ns + [n]) == Sent(cfg, got, ns) + Carried(cfg, got, Offset(ns), n)
  {
    assert (ns + [n])[..|ns|] == ns;
    OffsetBelow(ns);
  }

  /** No event that the rounds copied failed. */
  predicate Clean(cfg: Config, got: seq<Payload>, ns: seq<nat>) {
    |ns| > 0 ==>
      Clean(cfg, got, ns[..|ns| - 1]) && CleanFrom(cfg, got, Offset(ns[..|ns| - 1]), ns[|ns| - 1])
  }

  lemma CleanMore(cfg: Config, got: seq<Payload>, ns: seq<nat>, n: nat)
    requires Clean(cfg, got, ns) && CleanFrom(cfg, got, Offset(ns), n)
    ensures Clean(cfg, got, ns + [n])
  {
    assert (ns + [n])[..|ns|] == ns;
  }

  ghost predicate AllPositive(ns: seq<nat>) { forall r :: 0 <= r < |ns| ==> ns[r] > 0 }

  /** No round carries more than a chunk. */
  ghost predicate InChunks(ns: seq<nat>, chunk: nat) { forall r :: 0 <= r < |ns| ==> ns[r] <= chunk }

  lemma AddedReads(h0: map<nat, Msg>, h1: map<nat, Msg>, gets: seq<nat>)
    requires Added(h0, h1, gets)
    ensures forall k :: 0 <= k < |gets| ==> gets[k] in h1
    ensures Reading(h1, h0.Keys, gets, LoadsOf(h1, gets))
  {
    assert gets + [] == gets;
    forall k | 0 <= k < |gets| ensures gets[k] in h1 { assert gets[k] in Elements(gets); }
  }

  /** The rounds ns have put their events, carried in all. */
  ghost predicate SentSoFar(sent0: seq<Payload>, sent: seq<Payload>, cfg: Config, got: seq<Payload>, ns: seq<nat>, carried: nat) {
    && carried == Sum(ns) <= |got| && AllPositive(ns) && InChunks(ns, cfg.chunkTo)
    && sent == sent0 + Sent(cfg, got, ns) && Clean(cfg, got, ns)
  }

  lemma SentMore(sent0: seq<Payload>, sent1: seq<Payload>, sent2: seq<Payload>, cfg: Config, got: seq<Payload>,
                 ns: seq<nat>, carried: nat, n: nat)
    requires SentSoFar(sent0, sent1, cfg, got, ns, carried) && carried + n <= |got| && Offset(ns) + n <= |got| && n <= cfg.chunkTo
    requires sent2 == sent1 + Carried(cfg, got, Offset(ns), n) && CleanFrom(cfg, got, Offset(ns), n)
    ensures SentSoFar(sent0, sent2, cfg, got, if n > 0 then ns + [n] else ns, carried + n)
  {
    OneRound(cfg, got, ns, n);
    CleanMore(cfg, got, ns, n);
    var a, b := Sent(cfg, got, ns), Carried(cfg, got, Offset(ns), n);
    if n == 0 {
      assert b == [];
      assert sent2 == sent1;
    } else {
      Assoc(sent0, a, b);
    }
  }

  lemma Assoc(a: seq<Payload>, b: seq<Payload>, c: seq<Payload>)
    ensures (a + b) + c == a + (b + c)
  {
  }

  /** The innermost loop gives up at event k because its data cannot be swapped: k is reached
      from where a round starts, and what that round has copied is not put, or is the last
      that is. */
  predicate StoppedAt(cfg: Config, got: seq<Payload>, ns: seq<nat>, k: nat) {
    && k < |got| && Fails(cfg, got[k])
    && (|| (Offset(ns) <= k && CleanFrom(cfg, got, Offset(ns), k - Offset(ns)))
        || (|ns| > 0 && k == Offset(ns[..|ns| - 1]) + ns[|ns| - 1]))
  }

  lemma RoundStops(cfg: Config, got: seq<Payload>, ns: seq<nat>, carried: nat, k: nat)
    requires EndsAt(cfg, got, Offset(ns), carried, k)
    ensures StoppedAt(cfg, got, if carried > 0 then ns + [carried] else ns, k)
  {
    assert (ns + [carried])[..|ns|] == ns;
  }

  /** The middle loop: carry all the events of a batch, in as many rounds as it takes. */
  method Rounds(from: Port, to: Port, cfg: Config, get: array<nat>, numRead: nat,
                put: array<nat>, dump: array<nat>, ghost got: seq<Payload>, ghost fromBase: set<nat>)
    returns (status: Status, going: bool, carried: nat, ghost ns: seq<nat>, ghost stopped: Option<nat>)
    requires from != to && from.Valid() && to.Valid() && cfg.Valid() && get != put && get != dump && put != dump
    requires numRead <= get.Length && numRead <= put.Length && numRead <= dump.Length
    requires Reading(from.held, fromBase, get[..numRead], got)
    modifies from`held, from`sent, from`failures, to`held, to`sent, to`failures, to`strays, put, dump
    ensures from.Valid() && to.Valid() && from.failures >= old(from.failures) && to.failures >= old(to.failures)
    ensures SentSoFar(old(to.sent), to.sent, cfg, got, ns, carried)
    ensures going ==> status == OK && carried == numRead && to.held.Keys == old(to.held.Keys)
    ensures going ==> to.strays == old(to.strays) && to.failures == old(to.failures)
    ensures going ==> from.held == old(from.held) && from.failures == old(from.failures)
    ensures !going ==> Left(from.held.Keys, fromBase, from.failures - old(from.failures), 0)
    ensures !going ==> Left(to.held.Keys, old(to.held.Keys), to.failures - old(to.failures), to.strays - old(to.strays))
    ensures stopped.Some? <==> !going && status == OK
    ensures stopped.Some? ==> carried < numRead && StoppedAt(cfg, got, ns, stopped.value)
    ensures Roomy(from, to, got) ==> to.strays == old(to.strays)
  {
    ghost var sent0, base, toStrays, toFailures := to.sent, to.held.Keys, to.strays, to.failures;
    ghost var fromHeld, fromFailures := from.held, from.failures;
    var totalNew, numNewPrev := 0, 0;
    status, going, carried, ns, stopped := OK, true, 0, [], None;
    while totalNew < numRead
      invariant from.Valid() && to.Valid() && going && status == OK && stopped == None
      invariant totalNew == carried <= numRead && numNewPrev == Offset(ns)
      invariant SentSoFar(sent0, to.sent, cfg, got, ns, carried)
      invariant to.held.Keys == base && to.strays == toStrays && to.failures == toFailures
      invariant from.held == fromHeld && from.failures == fromFailures
      decreases numRead - totalNew
    {
      var n, some;
      ghost var sent1 := to.sent;
      OffsetBelow(ns);
      status, going, n, some, stopped := Round(from, to, cfg, get, numRead, totalNew, numNewPrev, put, dump, got, fromBase);
      SentMore(sent0, sent1, to.sent, cfg, got, ns, carried, some);
      if stopped.Some? { RoundStops(cfg, got, ns, some, stopped.value); }
      carried := carried + some;
      if some > 0 { ns := ns + [some]; }
      if !going { return; }
      totalNew := totalNew + n;
      numNewPrev := n;
    }
  }

  /** What was got at once, how many of its events each round carried, and the event whose
      data could not be swapped, if that was the end. */
  datatype Batch = Batch(got: seq<Payload>, rounds: seq<nat>, stopped: Option<nat>)

  ghost predicate InBounds(b: Batch) { Sum(b.rounds) <= |b.got| && AllPositive(b.rounds) }

  ghost predicate Whole(b: Batch) { Sum(b.rounds) == |b.got| && AllPositive(b.rounds) }

  /** The body of the outer loop: get events, carry them, and put them back. */
  method CarryBatch(from: Port, to: Port, cfg: Config, num2get: nat, get: array<nat>, put: array<nat>, dump: array<nat>)
    returns (status: Status, going: bool, numRead: nat, carried: nat, ghost batch: Batch)
    requires from != to && from.Valid() && to.Valid() && cfg.Valid() && get != put && get != dump && put != dump
    requires get.Length == put.Length == dump.Length == from.nevents
    modifies from, to, get, put, dump
    ensures from.Valid() && to.Valid() && from.failures >= old(from.failures) && to.failures >= old(to.failures)
    ensures carried == Sum(batch.rounds) && InBounds(batch) && |batch.got| == numRead <= num2get
    ensures to.sent == old(to.sent) + Sent(cfg, batch.got, batch.rounds) && Clean(cfg, batch.got, batch.rounds)
    ensures InChunks(batch.rounds, cfg.chunkTo)
    ensures going ==> status == OK && 1 <= carried == numRead
    ensures going ==> from.held.Keys == old(from.held.Keys) && to.held.Keys == old(to.held.Keys)
    ensures going ==> from.strays == old(from.strays) && from.failures == old(from.failures)
    ensures going ==> to.strays == old(to.strays) && to.failures == old(to.failures)
    ensures !going ==> Left(from.held.Keys, old(from.held.Keys), from.failures - old(from.failures), from.strays - old(from.strays))
    ensures !going ==> Left(to.held.Keys, old(to.held.Keys), to.failures - old(to.failures), to.strays - old(to.strays))
    ensures batch.stopped.Some? <==> !going && status == OK
    ensures batch.stopped.Some? ==> carried < numRead && StoppedAt(cfg, batch.got, batch.rounds, batch.stopped.value)
    ensures Roomy(from, to, batch.got) ==> to.strays == old(to.strays)
    ensures from.strays == old(from.strays) || TempBesides(from.held, old(from.held.Keys))
  {
    ghost var h0, got, ns := from.held, [], [];
    carried, batch := 0, Batch([], [], None);
    status, numRead := from.Get(num2get, get);
    if status != OK { return status, false, numRead, 0, batch; }
    AddedReads(h0, from.held, get[..numRead]);
    got := LoadsOf(from.held, get[..numRead]);
    ghost var stopped;
    status, going, carried, ns, stopped := Rounds(from, to, cfg, get, numRead, put, dump, got, h0.Keys);
    batch := Batch(got, ns, stopped);
    if going {
      status := Return(from, get[..numRead], got, h0.Keys);
      going := status == OK;
    }
  }

  // ----- the whole call -----

  ghost function Total(bs: seq<Batch>): nat {
    if |bs| == 0 then 0 else Total(bs[..|bs| - 1]) + Sum(bs[|bs| - 1].rounds)
  }

  /** Everything a call of the bridge put into the "to" system. */
  ghost function SentAll(cfg: Config, bs: seq<Batch>): (r: seq<Payload>)
    requires forall b :: 0 <= b < |bs| ==> InBounds(bs[b])
    ensures |r| == Total(bs)
  {
    if |bs| == 0 then []
    else
      assert InBounds(bs[|bs| - 1]);
      SentAll(cfg, bs[..|bs| - 1]) + Sent(cfg, bs[|bs| - 1].got, bs[|bs| - 1].rounds)
  }

  /** Everything it got from the "from" system. */
  ghost function GotAll(bs: seq<Batch>): seq<Payload> {
    if |bs| == 0 then [] else GotAll(bs[..|bs| - 1]) + bs[|bs| - 1].got
  }

  /** Only the last batch may have been left unfinished. */
  ghost predicate InTurn(bs: seq<Batch>) {
    && (forall b :: 0 <= b < |bs| ==> InBounds(bs[b]))
    && (forall b :: 0 <= b < |bs| - 1 ==> Whole(bs[b]))
  }

  lemma OneBatch(cfg: Config, bs: seq<Batch>, b: Batch)
    requires InTurn(bs) && (forall i :: 0 <= i < |bs| ==> Whole(bs[i])) && InBounds(b)
    ensures InTurn(bs + [b]) && Total(bs + [b]) == Total(bs) + Sum(b.rounds)
    ensures SentAll(cfg, bs + [b]) == SentAll(cfg, bs) + Sent(cfg, b.got, b.rounds)
  {
    assert (bs + [b])[..|bs|] == bs;
  }

  ghost predicate AllSent(sent0: seq<Payload>, sent: seq<Payload>, cfg: Config, bs: seq<Batch>, n: nat) {
    InTurn(bs) && n == Total(bs) && sent == sent0 + SentAll(cfg, bs)
  }

  lemma MoreSent(sent0: seq<Payload>, sent1: seq<Payload>, sent2: seq<Payload>, cfg: Config, bs: seq<Batch>, b: Batch, n: nat)
    requires AllSent(sent0, sent1, cfg, bs, n) && (forall i :: 0 <= i < |bs| ==> Whole(bs[i])) && InBounds(b)
    requires sent2 == sent1 + Sent(cfg, b.got, b.rounds)
    ensures AllSent(sent0, sent2, cfg, bs + [b], n + Sum(b.rounds))
  {
    OneBatch(cfg, bs, b);
    Assoc(sent0, SentAll(cfg, bs), Sent(cfg, b.got, b.rounds));
  }

  /** The byte order that the "to" system's host should see. */
  function Wanting(config: Config, sameEndian: bool): (cfg: Config) {
    config.(shouldBe := if sameEndian then NATIVE_ORDER else SWAPPED_ORDER)
  }

  lemma NothingLeft(held: set<nat>, base: set<nat>, failed: int, strays: int)
    requires Left(held, base, failed, strays)
    ensures failed == 0 && strays == 0 ==> held == base
  {
    assert base <= held ==> held == base + (held - base);
  }

  /** The data of an event got could not be swapped. */
  predicate Stopped(cfg: Config, b: Batch) { b.stopped.Some? && StoppedAt(cfg, b.got, b.rounds, b.stopped.value) }

  /** How a call that returns ET_OK has ended. */
  ghost predicate AllOrFailed(cfg: Config, bs: seq<Batch>, n: nat, num: nat) {
    if n == num then forall b :: 0 <= b < |bs| ==> Whole(bs[b]) && bs[b].stopped == None
    else n < num && |bs| > 0 && Stopped(cfg, bs[|bs| - 1])
  }

  /** Where a call stands that has read so many events of num. */
  ghost predicate CallSoFar(cfg: Config, sent0: seq<Payload>, sent: seq<Payload>, bs: seq<Batch>, n: nat,
                            read: nat, num: nat, going: bool, status: Status) {
    && AllSent(sent0, sent, cfg, bs, n) && n <= read <= num
    && (forall b :: 0 <= b < |bs| ==> |bs[b].got| <= cfg.chunkFrom && InChunks(bs[b].rounds, cfg.chunkTo) && Clean(cfg, bs[b].got, bs[b].rounds))
    && (going ==> status == OK && n == read && forall b :: 0 <= b < |bs| ==> Whole(bs[b]) && bs[b].stopped == None)
    && (!going && status == OK ==> |bs| > 0 && n < read && Stopped(cfg, bs[|bs| - 1]))
  }

  lemma CallGoesOn(cfg: Config, sent0: seq<Payload>, sent1: seq<Payload>, sent2: seq<Payload>, bs: seq<Batch>, n: nat,
                   read: nat, num: nat, batch: Batch, going: bool, status: Status)
    requires CallSoFar(cfg, sent0, sent1, bs, n, read, num, true, OK)
    requires InBounds(batch) && InChunks(batch.rounds, cfg.chunkTo) && |batch.got| <= cfg.chunkFrom && |batch.got| <= num - read
    requires sent2 == sent1 + Sent(cfg, batch.got, batch.rounds) && Clean(cfg, batch.got, batch.rounds)
    requires going ==> status == OK && Sum(batch.rounds) == |batch.got| && batch.stopped == None
    requires !going && status == OK ==> Sum(batch.rounds) < |batch.got| && Stopped(cfg, batch)
    ensures CallSoFar(cfg, sent0, sent2, bs + [batch], n + Sum(batch.rounds), read + |batch.got|, num, going, status)
  {
    MoreSent(sent0, sent1, sent2, cfg, bs, batch, n);
  }

  /** What an attachment holds that held h0 when the call began. */
  ghost predicate HoldsSoFar(h0: set<nat>, h: set<nat>, failed: int, strays: int, going: bool) {
    failed >= 0 && Left(h, h0, failed, strays) && (going ==> h == h0 && failed == 0 && strays == 0)
  }

  ghost predicate AllRoomy(from: Port, to: Port, bs: seq<Batch>) {
    forall b :: 0 <= b < |bs| ==> Roomy(from, to, bs[b].got)
  }

  lemma RoomyMore(from: Port, to: Port, bs: seq<Batch>, b: Batch)
    ensures AllRoomy(from, to, bs + [b]) <==> AllRoomy(from, to, bs) && Roomy(from, to, b.got)
  {
    assert (bs + [b])[|bs|] == b && forall i :: 0 <= i < |bs| ==> (bs + [b])[i] == bs[i];
  }

  /** The outer loop. */
  method Batches(from: Port, to: Port, cfg: Config, num: nat, get: array<nat>, put: array<nat>, dump: array<nat>)
    returns (status: Status, ntransferred: nat, going: bool, read: nat, ghost batches: seq<Batch>)
    requires from != to && from.Valid() && to.Valid() && cfg.Valid() && get != put && get != dump && put != dump
    requires get.Length == put.Length == dump.Length == from.nevents
    modifies from, to, get, put, dump
    ensures from.Valid() && to.Valid() && (going ==> read == num)
    ensures CallSoFar(cfg, old(to.sent), to.sent, batches, ntransferred, read, num, going, status)
    ensures HoldsSoFar(old(from.held.Keys), from.held.Keys, from.failures - old(from.failures), from.strays - old(from.strays), going)
    ensures HoldsSoFar(old(to.held.Keys), to.held.Keys, to.failures - old(to.failures), to.strays - old(to.strays), going)
    ensures AllRoomy(from, to, batches) ==> to.strays == old(to.strays)
    ensures from.strays == old(from.strays) || TempBesides(from.held, old(from.held.Keys))
  {
    ghost var sent0, fromHeld, toHeld := to.sent, from.held.Keys, to.held.Keys;
    ghost var fromFailures, toFailures, fromStrays, toStrays := from.failures, to.failures, from.strays, to.strays;
    status, ntransferred, going, read, batches := OK, 0, true, 0, [];
    while going && read < num
      invariant from.Valid() && to.Valid()
      invariant CallSoFar(cfg, sent0, to.sent, batches, ntransferred, read, num, going, status)
      invariant HoldsSoFar(fromHeld, from.held.Keys, from.failures - fromFailures, from.strays - fromStrays, going)
      invariant HoldsSoFar(toHeld, to.held.Keys, to.failures - toFailures, to.strays - toStrays, going)
      invariant AllRoomy(from, to, batches) ==> to.strays == toStrays
      invariant from.strays == fromStrays || TempBesides(from.held, fromHeld)
      decreases if going then num - read else -1
    {
      ghost var batch;
      status, ntransferred, going, read, batch := NextBatch(from, to, cfg, num, read, ntransferred, get, put, dump, sent0, batches);
      RoomyMore(from, to, batches, batch);
      batches := batches + [batch];
    }
  }

  /** The body of the outer loop, with its counts. */
  method NextBatch(from: Port, to: Port, cfg: Config, num: nat, sofar: nat, put0: nat, get: array<nat>, put: array<nat>, dump: array<nat>,
                   ghost sent0: seq<Payload>, ghost batches: seq<Batch>)
    returns (status: Status, ntransferred: nat, going: bool, read: nat, ghost batch: Batch)
    requires from != to && from.Valid() && to.Valid() && cfg.Valid() && get != put && get != dump && put != dump
    requires get.Length == put.Length == dump.Length == from.nevents
    requires CallSoFar(cfg, sent0, to.sent, batches, put0, sofar, num, true, OK) && sofar < num
    modifies from, to, get, put, dump
    ensures from.Valid() && to.Valid() && (going ==> read > sofar)
    ensures CallSoFar(cfg, sent0, to.sent, batches + [batch], ntransferred, read, num, going, status)
    ensures HoldsSoFar(old(from.held.Keys), from.held.Keys, from.failures - old(from.failures), from.strays - old(from.strays), going)
    ensures HoldsSoFar(old(to.held.Keys), to.held.Keys, to.failures - old(to.failures), to.strays - old(to.strays), going)
    ensures Roomy(from, to, batch.got) ==> to.strays == old(to.strays)
    ensures from.strays == old(from.strays) || TempBesides(from.held, old(from.held.Keys))
  {
    var num2get := if num - sofar < cfg.chunkFrom then num - sofar else cfg.chunkFrom;
    var numRead, carried;
    ghost var sent1 := to.sent;
    status, going, numRead, carried, batch := CarryBatch(from, to, cfg, num2get, get, put, dump);
    CallGoesOn(cfg, sent0, sent1, to.sent, batches, put0, sofar, num, batch, going, status);
    ntransferred, read := put0 + carried, sofar + numRead;
  }

  // ----- what arrives -----

  /** The events got that the rounds of a batch have carried, as they were got. */
  function Drawn(got: seq<Payload>, ns: seq<nat>): (r: seq<Payload>)
    requires Sum(ns) <= |got|
    ensures |r| == Sum(ns)
    decreases |ns|
  {
    if |ns| == 0 then []
    else
      var front := ns[..|ns| - 1];
      OffsetBelow(front);
      Drawn(got, front) + got[Offset(front)..Offset(front) + ns[|ns| - 1]]
  }

  ghost function AllDrawn(bs: seq<Batch>): (r: seq<Payload>)
    requires forall b :: 0 <= b < |bs| ==> InBounds(bs[b])
    ensures |r| == Total(bs)
  {
    if |bs| == 0 then []
    else
      assert InBounds(bs[|bs| - 1]);
      AllDrawn(bs[..|bs| - 1]) + Drawn(bs[|bs| - 1].got, bs[|bs| - 1].rounds)
  }

  /** Every tag is that of one of the two byte orders. */
  predicate Tagged(got: seq<Payload>) {
    forall k :: 0 <= k < |got| ==> got[k].byteorder == 0x04030201 || got[k].byteorder == 0x01020304
  }

  /** Event p arrives where byte order right is wanted, for event g. Data that have it, or
      that nobody can swap, are the same; others are what the user's function makes of
      them, which is told whether they are in the byte order of this host. */
  predicate Arrives(config: Config, right: bv32, g: Payload, p: Payload) {
    && p.length == g.length && p.priority == g.priority
    && (forall k :: 0 <= k < CONTROL_INTS ==> p.control[k] == if k < config.nselects then g.control[k] else 0)
    && (config.func == None || g.byteorder == right ==> p.byteorder == g.byteorder && p.data == g.data)
    && (config.func.Some? && g.byteorder != right ==>
          && config.func.value(g.data, g.byteorder == 0x04030201) == Some(p.data)
          && p.byteorder == Swap32(g.byteorder))
  }

  lemma ConvertedArrives(config: Config, sameEndian: bool, g: Payload)
    requires !Fails(Wanting(config, sameEndian), g)
    ensures Arrives(config, if sameEndian then 0x04030201 else 0x01020304, g, Convert(Wanting(config, sameEndian), g))
  {
  }

  /** Which event of those got the j-th one put carries. */
  lemma {:induction false} DrawnFrom(cfg: Config, got: seq<Payload>, ns: seq<nat>, j: nat) returns (k: nat)
    requires Sum(ns) <= |got| && Clean(cfg, got, ns) && j < Sum(ns)
    ensures k < |got| && Drawn(got, ns)[j] == got[k] && Sent(cfg, got, ns)[j] == Convert(cfg, got[k]) && !Fails(cfg, got[k])
    decreases |ns|
  {
    var front, last := ns[..|ns| - 1], ns[|ns| - 1];
    OffsetBelow(front);
    if j < Sum(front) {
      k := DrawnFrom(cfg, got, front, j);
    } else {
      k := Offset(front) + (j - Sum(front));
      assert Carried(cfg, got, Offset(front), last)[j - Sum(front)] == Convert(cfg, got[k]);
    }
  }

  lemma DrawnArrive(config: Config, sameEndian: bool, got: seq<Payload>, ns: seq<nat>, j: nat)
    requires Sum(ns) <= |got| && Clean(Wanting(config, sameEndian), got, ns) && j < Sum(ns)
    ensures Arrives(config, if sameEndian then 0x04030201 else 0x01020304, Drawn(got, ns)[j], Sent(Wanting(config, sameEndian), got, ns)[j])
    ensures Drawn(got, ns)[j] in got
  {
    var k := DrawnFrom(Wanting(config, sameEndian), got, ns, j);
    ConvertedArrives(config, sameEndian, got[k]);
  }

  lemma {:induction false} AllArrive(config: Config, sameEndian: bool, bs: seq<Batch>)
    requires InTurn(bs) && forall b :: 0 <= b < |bs| ==> Clean(Wanting(config, sameEndian), bs[b].got, bs[b].rounds)
    ensures forall j :: 0 <= j < Total(bs) ==>
      Arrives(config, if sameEndian then 0x04030201 else 0x01020304, AllDrawn(bs)[j], SentAll(Wanting(config, sameEndian), bs)[j])
  {
    if |bs| > 0 {
      var front, last := bs[..|bs| - 1], bs[|bs| - 1];
      AllArrive(config, sameEndian, front);
      assert InBounds(last) && Clean(Wanting(config, sameEndian), last.got, last.rounds);
      forall j: nat | j < Sum(last.rounds)
        ensures Arrives(config, if sameEndian then 0x04030201 else 0x01020304, Drawn(last.got, last.rounds)[j],
                        Sent(Wanting(config, sameEndian), last.got, last.rounds)[j])
      {
        DrawnArrive(config, sameEndian, last.got, last.rounds, j);
      }
    }
  }

  lemma {:induction false} AllInRightOrder(config: Config, sameEndian: bool, bs: seq<Batch>)
    requires InTurn(bs) && forall b :: 0 <= b < |bs| ==> Clean(Wanting(config, sameEndian), bs[b].got, bs[b].rounds)
    ensures config.func.Some? && (forall b :: 0 <= b < |bs| ==> Tagged(bs[b].got)) ==>
      forall j :: 0 <= j < Total(bs) ==>
        SentAll(Wanting(config, sameEndian), bs)[j].byteorder == if sameEndian then 0x04030201 else 0x01020304
  {
    if |bs| > 0 && config.func.Some? && forall b :: 0 <= b < |bs| ==> Tagged(bs[b].got) {
      var front, last, cfg := bs[..|bs| - 1], bs[|bs| - 1], Wanting(config, sameEndian);
      AllInRightOrder(config, sameEndian, front);
      assert InBounds(last) && Clean(cfg, last.got, last.rounds) && Tagged(last.got);
      forall j: nat | j < Sum(last.rounds)
        ensures Sent(cfg, last.got, last.rounds)[j].byteorder == if sameEndian then 0x04030201 else 0x01020304
      {
        DrawnArrive(config, sameEndian, last.got, last.rounds, j);
        SwapTwice(Drawn(last.got, last.rounds)[j].byteorder);
      }
    }
  }

  /** localET_2_localET. Nothing is counted that was not put; nothing is kept that was
      not read in vain, whatever way it ends, unless a put or dump of its own fails; and
      that can only be when temp events are concerned. */
  method Transfer(from: Port, to: Port, config: Config, sameEndian: bool, num: int)
    returns (status: Status, ntransferred: nat, ghost batches: seq<Batch>)
    requires from != to && from.Valid() && to.Valid() && config.Valid()
    modifies from, to
    ensures from.Valid() && to.Valid()
    ensures InTurn(batches) && ntransferred == Total(batches)
    ensures to.sent == old(to.sent) + SentAll(Wanting(config, sameEndian), batches)
    ensures forall b :: 0 <= b < |batches| ==>
              |batches[b].got| <= config.chunkFrom && InChunks(batches[b].rounds, config.chunkTo)
              && Clean(Wanting(config, sameEndian), batches[b].got, batches[b].rounds)
    ensures ntransferred == |to.sent| - |old(to.sent)| <= if num < 0 then 0 else num
    ensures ntransferred == |AllDrawn(batches)| && forall j :: 0 <= j < ntransferred ==>
              Arrives(config, if sameEndian then 0x04030201 else 0x01020304, AllDrawn(batches)[j], to.sent[|old(to.sent)| + j])
    ensures config.func.Some? && (forall b :: 0 <= b < |batches| ==> Tagged(batches[b].got)) ==>
              forall j :: |old(to.sent)| <= j < |to.sent| ==>
                to.sent[j].byteorder == if sameEndian then 0x04030201 else 0x01020304
    ensures status == OK ==> AllOrFailed(Wanting(config, sameEndian), batches, ntransferred, if num < 0 then 0 else num)
    ensures to.failures == old(to.failures) && AllRoomy(from, to, batches) ==> to.held.Keys == old(to.held.Keys)
    ensures from.failures == old(from.failures) ==>
              from.held.Keys == old(from.held.Keys) || TempBesides(from.held, old(from.held.Keys))
    ensures Left(from.held.Keys, old(from.held.Keys), from.failures - old(from.failures), from.strays - old(from.strays))
    ensures Left(to.held.Keys, old(to.held.Keys), to.failures - old(to.failures), to.strays - old(to.strays))
  {
    var get := new nat[from.nevents];
    var dump := new nat[from.nevents];
    var put := new nat[from.nevents];
    var cfg := Wanting(config, sameEndian);
    var going, read;
    status, ntransferred, going, read, batches := Batches(from, to, cfg, if num < 0 then 0 else num, get, put, dump);
    NothingLeft(from.held.Keys, old(from.held.Keys), from.failures - old(from.failures), from.strays - old(from.strays));
    NothingLeft(to.held.Keys, old(to.held.Keys), to.failures - old(to.failures), to.strays - old(to.strays));
    AllArrive(config, sameEndian, batches);
    AllInRightOrder(config, sameEndian, batches);
  }

  // ----- what that means -----

  /** A call that returns ET_OK and never took more than two rounds for a batch has carried
      what it was asked to if and only if the swap function failed on no event got. */
  lemma CarriedAllIff(cfg: Config, bs: seq<Batch>, n: nat, num: nat)
    requires InTurn(bs) && AllOrFailed(cfg, bs, n, num)
    requires forall b :: 0 <= b < |bs| ==> Clean(cfg, bs[b].got, bs[b].rounds) && |bs[b].rounds| <= 2
    ensures n == num <==> forall b :: 0 <= b < |bs| ==> NoneFails(cfg, bs[b].got)
  {
    if n == num {
      forall b | 0 <= b < |bs| ensures NoneFails(cfg, bs[b].got) { WholeIsClean(cfg, bs[b]); }
    } else {
      assert Stopped(cfg, bs[|bs| - 1]);
    }
  }

  /** The rounds of a batch read event k. */
  predicate Reads(b: Batch, k: nat) {
    b.stopped == Some(k) || exists m :: 0 <= m < |b.rounds| && InRound(b.rounds, m, k)
  }

  predicate InRound(ns: seq<nat>, m: nat, k: nat)
    requires m < |ns|
  { Offset(ns[..m]) <= k < Offset(ns[..m]) + ns[m] }

  predicate NoneReadFails(cfg: Config, b: Batch) { forall k: nat :: k < |b.got| && Reads(b, k) ==> !Fails(cfg, b.got[k]) }

  /** However many rounds its batches take, a call that returns ET_OK has carried as many events
      as it was asked to if and only if the swap function fails on none of those its rounds
      have read. */
  lemma CarriedIffNoneRead(cfg: Config, bs: seq<Batch>, n: nat, num: nat)
    requires InTurn(bs) && AllOrFailed(cfg, bs, n, num)
    requires forall b :: 0 <= b < |bs| ==> Clean(cfg, bs[b].got, bs[b].rounds)
    ensures n == num <==> forall b :: 0 <= b < |bs| ==> NoneReadFails(cfg, bs[b])
  {
    if n == num {
      forall b, k: nat | 0 <= b < |bs| && k < |bs[b].got| && Reads(bs[b], k) ensures !Fails(cfg, bs[b].got[k]) {
        var m :| 0 <= m < |bs[b].rounds| && InRound(bs[b].rounds, m, k);
        CleanRound(cfg, bs[b].got, bs[b].rounds, m, k);
      }
    } else {
      var last := bs[|bs| - 1];
      assert Reads(last, last.stopped.value);
    }
  }

  lemma {:induction false} CleanRound(cfg: Config, got: seq<Payload>, ns: seq<nat>, m: nat, k: nat)
    requires Clean(cfg, got, ns) && m < |ns| && k < |got| && InRound(ns, m, k)
    ensures !Fails(cfg, got[k])
    decreases |ns|
  {
    if m < |ns| - 1 {
      assert ns[..|ns| - 1][..m] == ns[..m];
      CleanRound(cfg, got, ns[..|ns| - 1], m, k);
    }
  }

  lemma WholeIsClean(cfg: Config, b: Batch)
    requires Whole(b) && Clean(cfg, b.got, b.rounds) && |b.rounds| <= 2
    ensures NoneFails(cfg, b.got)
  {
    var ns := b.rounds;
    if |ns| > 0 { assert ns[..0] == [] && ns[..1] == [ns[0]] && ns[..1][..0] == []; }
    if |ns| == 1 { SumOne(ns[0]); }
    if |ns| == 2 {
      assert ns[..|ns| - 1] == ns[..1];
      SumOne(ns[0]);
      assert |b.got| == ns[0] + ns[1];
      assert CleanFrom(cfg, b.got, 0, ns[0]) && CleanFrom(cfg, b.got, ns[0], ns[1]);
    }
  }

  /** More rounds may pass an event by on which the function would fail, and fail on none:
      so a third event that cannot be swapped goes unnoticed. */
  lemma FailureUnnoticed(cfg: Config, a: Payload, b: Payload, c: Payload)
    requires !Fails(cfg, a) && !Fails(cfg, b) && Fails(cfg, c)
    ensures Whole(Batch([a, b, c], [1, 1, 1], None)) && Clean(cfg, [a, b, c], [1, 1, 1]) && !NoneFails(cfg, [a, b, c])
  {
    ThreeRounds(cfg, a, b, c);
    var got, ones: seq<nat> := [a, b, c], [1, 1, 1];
    assert got[2] == c;
    assert [1, 1, 1] == [1, 1] + [1] && [1, 1] == [1] + [1] && [1] == [] + [1];
    CleanMore(cfg, got, [], 1);
    CleanMore(cfg, got, [1], 1);
    CleanMore(cfg, got, [1, 1], 1);
  }

  /** The first event that round m carries comes from the offset kept then. */
  lemma {:induction false} RoundStarts(cfg: Config, got: seq<Payload>, ns: seq<nat>, m: nat)
    requires Sum(ns) <= |got| && m < |ns| && ns[m] > 0
    ensures Sum(ns[..m]) < Sum(ns) && Offset(ns[..m]) < |got|
    ensures Sent(cfg, got, ns)[Sum(ns[..m])] == Convert(cfg, got[Offset(ns[..m])])
    decreases |ns|
  {
    var front := ns[..|ns| - 1];
    OffsetBelow(front);
    if m == |ns| - 1 {
      assert ns[..m] == front;
    } else {
      assert front[..m] == ns[..m];
      RoundStarts(cfg, got, front, m);
    }
  }

  lemma {:induction false} SumPrefix(ns: seq<nat>, m: nat)
    requires m <= |ns|
    ensures Sum(ns[..m]) <= Sum(ns)
    decreases |ns|
  {
    if m < |ns| {
      assert ns[..|ns| - 1][..m] == ns[..m];
      SumPrefix(ns[..|ns| - 1], m);
    } else {
      assert ns[..m] == ns;
    }
  }

  lemma OneRoundRight(cfg: Config, got: seq<Payload>, m: nat)
    requires m <= |got|
    ensures Sum([m]) == m && Sent(cfg, got, [m]) == Carried(cfg, got, 0, m)
  {
    assert [m][..0] == [];
    var r := Sent(cfg, got, [m]);
    assert r == Sent(cfg, got, []) + Carried(cfg, got, 0, m);
  }

  lemma TwoRoundsRight(cfg: Config, got: seq<Payload>, ns: seq<nat>)
    requires Sum(ns) <= |got| && |ns| <= 2
    ensures Sent(cfg, got, ns) == Carried(cfg, got, 0, Sum(ns))
  {
    if |ns| == 1 {
      assert ns == [ns[0]];
      SumPrefix(ns, 1);
      OneRoundRight(cfg, got, ns[0]);
    } else if |ns| == 2 {
      assert ns[..1] == [ns[0]];
      SumPrefix(ns, 1);
      SumOne(ns[0]);
      OneRoundRight(cfg, got, ns[0]);
      CarriedOn(cfg, got, ns[0], ns[1]);
    }
  }

  lemma SumOne(m: nat)
    ensures Sum([m]) == m
  {
    assert [m][..0] == [];
  }

  lemma CarriedOn(cfg: Config, got: seq<Payload>, m: nat, n: nat)
    requires m + n <= |got|
    ensures Carried(cfg, got, 0, m) + Carried(cfg, got, m, n) == Carried(cfg, got, 0, m + n)
  {
  }

  lemma FirstTwo(ns: seq<nat>)
    requires |ns| > 2
    ensures Sum(ns[..2]) == ns[0] + ns[1] && Offset(ns[..2]) == ns[1]
  {
    assert ns[..2][..1] == [ns[0]];
    SumOne(ns[0]);
  }

  lemma ThirdRoundWrong(cfg: Config, got: seq<Payload>, ns: seq<nat>)
    requires AllPositive(ns) && Sum(ns) <= |got| && |ns| > 2
    ensures ns[0] + ns[1] < Sum(ns) && Sent(cfg, got, ns)[ns[0] + ns[1]] == Convert(cfg, got[ns[1]])
  {
    assert ns[2] > 0;
    FirstTwo(ns);
    RoundStarts(cfg, got, ns, 2);
    assert Sum(ns[..2]) == ns[0] + ns[1];
  }

  /** The offset kept is that of the last round alone. So the k-th event of a batch put
      carries the k-th event got exactly when the batch took at most two rounds. */
  lemma RightIffTwoRounds(cfg: Config, got: seq<Payload>, ns: seq<nat>)
    requires AllPositive(ns) && Sum(ns) <= |got|
    requires forall j, k :: 0 <= j < k < |got| ==> Convert(cfg, got[j]) != Convert(cfg, got[k])
    ensures Sent(cfg, got, ns) == Carried(cfg, got, 0, Sum(ns)) <==> |ns| <= 2
  {
    if |ns| <= 2 {
      TwoRoundsRight(cfg, got, ns);
    } else {
      ThirdRoundWrong(cfg, got, ns);
      assert Carried(cfg, got, 0, Sum(ns))[ns[0] + ns[1]] == Convert(cfg, got[ns[0] + ns[1]]);
    }
  }

  /** Three events in three rounds: the second is sent twice and the third is lost. */
  lemma ThreeRounds(cfg: Config, a: Payload, b: Payload, c: Payload)
    ensures Sum([1, 1, 1]) == 3
    ensures Sent(cfg, [a, b, c], [1, 1, 1]) == [Convert(cfg, a), Convert(cfg, b), Convert(cfg, b)]
  {
    var got, ones: seq<nat> := [a, b, c], [1, 1, 1];
    assert [1, 1, 1] == [1, 1] + [1] && [1, 1] == [1] + [1] && [1] == [] + [1];
    OneRound(cfg, got, [], 1);
    OneRound(cfg, got, [1], 1);
    OneRound(cfg, got, [1, 1], 1);
  }

  /** Every round gets as many new events as it asks for. */
  ghost predicate AsAsked(ns: seq<nat>, total: nat, chunk: nat) {
    forall r :: 0 <= r < |ns| ==>
      Sum(ns[..r]) <= total && ns[r] == if total - Sum(ns[..r]) < chunk then total - Sum(ns[..r]) else chunk
  }

  /** Then two rounds are enough exactly for batches of up to two chunks. */
  lemma TwoRoundsIffTwoChunks(ns: seq<nat>, total: nat, chunk: nat)
    requires AsAsked(ns, total, chunk) && Sum(ns) == total && AllPositive(ns) && chunk > 0
    ensures |ns| <= 2 <==> total <= 2 * chunk
  {
    if |ns| > 0 { assert ns[..0] == [] && ns[..1] == [] + [ns[0]] && ns[..1][..0] == []; }
    if |ns| > 1 { assert ns[..2] == ns[..1] + [ns[1]] && ns[..2][..1] == ns[..1]; }
    if |ns| == 1 { assert ns == ns[..1]; }
    if |ns| == 2 { assert ns == ns[..2]; }
    if |ns| > 2 {
      assert ns[2] > 0 && ns[2] <= total - Sum(ns[..2]);
    }
  }

  /** What a batch would carry if each round started where the ones before it ended. */
  function SentInTurn(cfg: Config, got: seq<Payload>, ns: seq<nat>): (r: seq<Payload>)
    requires Sum(ns) <= |got|
    ensures |r| == Sum(ns)
    decreases |ns|
  {
    if |ns| == 0 then []
    else SentInTurn(cfg, got, ns[..|ns| - 1]) + Carried(cfg, got, Sum(ns[..|ns| - 1]), ns[|ns| - 1])
  }

  /** It would be in order however many rounds it takes, and whatever their sizes. */
  lemma {:induction false} InTurnIsRight(cfg: Config, got: seq<Payload>, ns: seq<nat>)
    requires Sum(ns) <= |got|
    ensures SentInTurn(cfg, got, ns) == Carried(cfg, got, 0, Sum(ns))
    decreases |ns|
  {
    if |ns| > 0 {
      var front, last := ns[..|ns| - 1], ns[|ns| - 1];
      InTurnIsRight(cfg, got, front);
      CarriedOn(cfg, got, Sum(front), last);
    }
  }

  /** All requests for new events but the last were filled; the last may have been cut short. */
  ghost predicate Asked(b: Batch, chunk: nat) {
    forall r :: 0 <= r < |b.rounds| - 1 ==>
      var done := Sum(b.rounds[..r]);
      done <= |b.got| && b.rounds[r] == if |b.got| - done < chunk then |b.got| - done else chunk
  }

  lemma ThirdRoundMeansMore(b: Batch, chunk: nat)
    requires InBounds(b) && Asked(b, chunk)
    ensures |b.rounds| > 2 ==> |b.got| > 2 * chunk
  {
    var ns := b.rounds;
    if |ns| > 2 {
      assert ns[..0] == [] && ns[..1] == [ns[0]] && ns[2] > 0;
      SumOne(ns[0]);
      FirstTwo(ns);
      SumPrefix(ns, 3);
      assert ns[..3][..2] == ns[..2];
    }
  }

  /** So with filled requests, a chunk to get that is at most twice the chunk to put makes
      the whole call right. */
  lemma SmallChunksInOrder(cfg: Config, bs: seq<Batch>)
    requires InTurn(bs) && cfg.chunkFrom <= 2 * cfg.chunkTo
    requires forall b :: 0 <= b < |bs| ==> |bs[b].got| <= cfg.chunkFrom && Asked(bs[b], cfg.chunkTo)
    ensures Total(bs) <= |GotAll(bs)| && SentAll(cfg, bs) == Carried(cfg, GotAll(bs), 0, Total(bs))
  {
    forall b | 0 <= b < |bs| ensures |bs[b].rounds| <= 2 {
      assert InBounds(bs[b]);
      ThirdRoundMeansMore(bs[b], cfg.chunkTo);
    }
    AllInOrder(cfg, bs);
  }

  lemma CarriedAppend(cfg: Config, s: seq<Payload>, t: seq<Payload>, n: nat)
    requires n <= |t|
    ensures Carried(cfg, s + t, 0, |s| + n) == Carried(cfg, s, 0, |s|) + Carried(cfg, t, 0, n)
  {
  }

  /** When no batch takes more than two rounds, what was put is what was got, converted,
      in order and without gap, as far as it went. */
  lemma {:induction false} AllInOrder(cfg: Config, bs: seq<Batch>)
    requires InTurn(bs) && forall b :: 0 <= b < |bs| ==> |bs[b].rounds| <= 2
    ensures Total(bs) <= |GotAll(bs)| && SentAll(cfg, bs) == Carried(cfg, GotAll(bs), 0, Total(bs))
    ensures (forall b :: 0 <= b < |bs| ==> Whole(bs[b])) ==> Total(bs) == |GotAll(bs)|
  {
    if |bs| > 0 {
      var front, last := bs[..|bs| - 1], bs[|bs| - 1];
      AllInOrder(cfg, front);
      assert forall b :: 0 <= b < |front| ==> Whole(front[b]);
      assert InBounds(last);
      TwoRoundsRight(cfg, last.got, last.rounds);
      CarriedAppend(cfg, GotAll(front), last.got, Sum(last.rounds));
    }
  }

  lemma SwapTwice(x: bv32)
    ensures Swap32(Swap32(x)) == x
    ensures Swap32(NATIVE_ORDER) == SWAPPED_ORDER && Swap32(SWAPPED_ORDER) == NATIVE_ORDER
  {
  }

  /** With a swap function, every event arrives in the byte order it should; its tag flips
      exactly when its data were swapped. All else that matters arrives as it was. */
  lemma ArrivesAsItShould(cfg: Config, g: Payload)
    requires g.byteorder == NATIVE_ORDER || g.byteorder == SWAPPED_ORDER
    requires cfg.shouldBe == NATIVE_ORDER || cfg.shouldBe == SWAPPED_ORDER
    ensures cfg.func != None && !Fails(cfg, g) ==> Convert(cfg, g).byteorder == cfg.shouldBe
    ensures Convert(cfg, g).byteorder == g.byteorder ==> Convert(cfg, g).data == g.data
    ensures Convert(cfg, g).byteorder != g.byteorder ==> Swaps(cfg, g) && Some(Convert(cfg, g).data) == Swapped(cfg, g)
    ensures Convert(cfg, g).length == g.length && Convert(cfg, g).priority == g.priority
    ensures forall k :: 0 <= k < cfg.nselects && k < CONTROL_INTS ==> Convert(cfg, g).control[k] == g.control[k]
  {
    SwapTwice(g.byteorder);
  }
}
