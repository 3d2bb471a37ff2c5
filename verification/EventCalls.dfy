/** The calls of et_event.c, as programs over shared memory.

    Each call is made of small pieces, and between any two of them the other
    attachments and the conductors may take any of their steps. Every piece is one
    step of the machine in EventLife, so whatever the calls leave behind is a state
    its invariants hold of. */
module EventCalls {
  import opened EventLists
  import opened EventLife

  datatype Status = OK | ERROR | TOOMANY | NOTREAD

  ghost predicate Recorded(start: State, trace: seq<Step>, now: State) {
    Inv(start) && Possible(start, trace) && Run(start, trace) == now
  }

  lemma RecordOne(start: State, trace: seq<Step>, now: State, step: Step)
    requires Recorded(start, trace, now) && Inv(now) && Enabled(now, step)
    ensures Recorded(start, trace + [step], Apply(now, step)) && Inv(Apply(now, step))
  {
    RunOneMore(start, trace, step);
    StepKeepsInv(now, step);
  }

  /** Between two moments of a run, one step led from state at to state after. */
  ghost predicate Passed(start: State, before: seq<Step>, now: seq<Step>, at: State, after: State) {
    exists i :: |before| <= i < |now| && StepAt(start, now, i, at, after)
  }

  ghost predicate StepAt(start: State, trace: seq<Step>, i: nat, at: State, after: State) {
    i < |trace| && Recorded(start, trace[..i], at) && Recorded(start, trace[..i + 1], after)
  }

  lemma JustPassed(start: State, before: seq<Step>, trace: seq<Step>, step: Step, now: seq<Step>, at: State, after: State)
    requires Recorded(start, trace, at) && Recorded(start, trace + [step], after) && before <= trace && trace + [step] <= now
    ensures Passed(start, before, now, at, after)
  {
    assert now[..|trace|] == trace && now[..|trace| + 1] == trace + [step];
    assert StepAt(start, now, |trace|, at, after);
  }

  lemma PassedEarlier(start: State, t0: seq<Step>, t1: seq<Step>, t2: seq<Step>, t3: seq<Step>, at: State, after: State)
    requires Passed(start, t1, t2, at, after) && t0 <= t1 && t2 <= t3
    ensures Passed(start, t0, t3, at, after)
  {
    var i :| |t1| <= i < |t2| && StepAt(start, t2, i, at, after);
    assert t3[..i] == t2[..i] && t3[..i + 1] == t2[..i + 1];
    assert StepAt(start, t3, i, at, after);
  }

  /** From s to t the events pe joined a station's output list. */
  ghost predicate WroteTo(s: State, t: State, station: nat, pe: seq<nat>) { Joins(s, t, 3 * station + 1, pe) }

  predicate HasRoom(s: State, station: nat, pe: seq<nat>) {
    3 * station + 1 < |s.lists| && |pe| + |s.lists[3 * station + 1]| <= |s.ev|
  }

  lemma RoomIs(s: State, a: nat, pe: seq<nat>)
    requires Shape(s) && a < |s.att|
    ensures HasRoom(s, s.att[a].stat, pe) <==> |pe| <= |s.ev| - |s.lists[Out(s.att[a].stat)]|
  {
  }

  lemma Wrote(s: State, a: nat, pe: seq<nat>)
    requires Shape(s) && a < |s.att|
    ensures WroteTo(s, AfterWrite(s, a, pe), s.att[a].stat, pe)
  {
    WriteJoins(s, a, pe);
  }

  /** From s to t the events pe were taken from the front of a station's input list. */
  ghost predicate Taken(s: State, t: State, station: nat, pe: seq<nat>) {
    && 3 * station < |s.lists| && pe <= s.lists[3 * station]
    && t.lists == s.lists[3 * station := s.lists[3 * station][|pe|..]]
  }

  /** Between two moments of a run the events pe were read at once, if there are any. */
  ghost predicate Drew(start: State, before: seq<Step>, now: seq<Step>, at: State, after: State, station: nat, pe: seq<nat>) {
    |pe| > 0 ==> Passed(start, before, now, at, after) && Taken(at, after, station, pe)
  }

  lemma DrewEarlier(start: State, t0: seq<Step>, t1: seq<Step>, t2: seq<Step>, t3: seq<Step>, at: State, after: State,
                    station: nat, pe: seq<nat>)
    requires Drew(start, t1, t2, at, after, station, pe) && t0 <= t1 && t2 <= t3
    ensures Drew(start, t0, t3, at, after, station, pe)
  {
    if |pe| > 0 { PassedEarlier(start, t0, t1, t2, t3, at, after); }
  }

  /** From s to t they were put at the end of GrandCentral's. */
  ghost predicate Recycled(s: State, t: State, pe: seq<nat>) {
    |s.lists| > 0 && t.lists == s.lists[0 := s.lists[0] + pe]
  }

  // ----- what an attachment itself did in a run -----

  /** The steps of its own by which an attachment moves events, marks them used, removes
      temp files, fails to make one, or lowers ntemps. */
  predicate Acts(step: Step, a: nat) {
    Actor(step) == a && (Moves(step) || step.Age? || step.TempRemoved? || step.TempNotMade? || step.Settle?)
  }

  ghost function ActsOf(trace: seq<Step>, a: nat): seq<Step> {
    if |trace| == 0 then []
    else if Acts(trace[|trace| - 1], a) then ActsOf(trace[..|trace| - 1], a) + [trace[|trace| - 1]]
    else ActsOf(trace[..|trace| - 1], a)
  }

  /** From one trace to a longer one, the attachment did none of that. */
  ghost predicate Quiet(before: seq<Step>, after: seq<Step>, a: nat) {
    before <= after && ActsOf(after, a) == ActsOf(before, a)
  }

  /** It did this, and no more. */
  ghost predicate Did(before: seq<Step>, after: seq<Step>, a: nat, acts: seq<Step>) {
    before <= after && ActsOf(after, a) == ActsOf(before, a) + acts
  }

  lemma OneAct(trace: seq<Step>, step: Step, a: nat)
    ensures ActsOf(trace + [step], a) == if Acts(step, a) then ActsOf(trace, a) + [step] else ActsOf(trace, a)
  {
    assert (trace + [step])[..|trace|] == trace;
  }

  lemma NothingDone(t0: seq<Step>, t1: seq<Step>, a: nat, pe: seq<nat>)
    requires Quiet(t0, t1, a)
    ensures Did(t0, t1, a, Ages(a, pe[..0]) + [])
  {
    assert Ages(a, pe[..0]) + [] == [];
  }

  lemma ThenDid(t0: seq<Step>, t1: seq<Step>, t2: seq<Step>, a: nat, acts: seq<Step>)
    requires Quiet(t0, t1, a) && Did(t1, t2, a, acts)
    ensures Did(t0, t2, a, acts)
  {
  }

  lemma DidBoth(t0: seq<Step>, t1: seq<Step>, t2: seq<Step>, a: nat, acts: seq<Step>, more: seq<Step>)
    requires Did(t0, t1, a, acts) && Did(t1, t2, a, more)
    ensures Did(t0, t2, a, acts + more)
  {
  }

  function Ages(a: nat, pe: seq<nat>): seq<Step> {
    seq(|pe|, i requires 0 <= i < |pe| => Age(a, pe[i], true))
  }

  lemma AgesMore(a: nat, pe: seq<nat>, i: nat)
    requires i < |pe|
    ensures Ages(a, pe[..i + 1]) == Ages(a, pe[..i]) + [Age(a, pe[i], true)]
  {
  }

  lemma OwnersGrow(ev: seq<Event>, es: seq<nat>, i: nat, owner: int)
    requires i < |es| && es[i] < |ev|
    ensures Owners(ev, es[..i + 1], owner) == Owners(ev, es[..i], owner)[es[i] := ev[es[i]].(owner := owner)]
  {
    assert es[..i + 1] == es[..i] + [es[i]];
  }

  /** An event as a call for a new one leaves it. */
  function NewEvent(s: State, a: nat, size: nat): Event {
    Event(a, false, size > s.eventSize, false, size, if size > s.eventSize then size else s.eventSize)
  }

  /** The events an attachment owned are still its own and unchanged, but for some. */
  ghost predicate Kept(s: State, t: State, a: nat, but: seq<nat>) {
    && |t.ev| == |s.ev| && |t.att| == |s.att| && |t.lists| == |s.lists|
    && t.eventSize == s.eventSize && t.maxTemps == s.maxTemps
    && forall e :: 0 <= e < |s.ev| && s.ev[e].owner == a && e !in but ==>
         t.ev[e] == s.ev[e] && (e in t.raw <==> e in s.raw) && (e !in s.raw ==> (e in t.live <==> e in s.live))
  }

  /** Nothing is pending for an attachment that was not before. */
  ghost predicate SamePending(s: State, t: State, a: nat) {
    t.reserved[a] == s.reserved[a] && t.settling[a] == s.settling[a]
  }

  /** From s to t, event e of the attachment was made to hold size bytes. */
  ghost predicate MadeOne(s: State, t: State, a: nat, e: nat, size: nat)
    requires a < |s.att|
  {
    && Kept(s, t, a, [e]) && SamePending(s, t, a) && t.att[a] == s.att[a]
    && OwnedBy(t.ev, a) == OwnedBy(s.ev, a)
    && e < |t.ev| && t.ev[e] == NewEvent(s, a, size) && e !in t.raw
  }

  /** From s to t, the attachment came to own the events pe besides those it had. */
  ghost predicate Acquired(s: State, t: State, a: nat, pe: seq<nat>) {
    && Kept(s, t, a, []) && SamePending(s, t, a) && a < |s.att|
    && OwnedBy(t.ev, a) == OwnedBy(s.ev, a) + Elements(pe) && Distinct(pe)
    && forall j :: 0 <= j < |pe| ==> pe[j] < |s.ev| && s.ev[pe[j]].owner != a && t.ev[pe[j]].owner == a
  }

  /** And has not credited them. */
  ghost predicate AcquiredAll(s: State, t: State, a: nat, pe: seq<nat>) {
    Acquired(s, t, a, pe) && t.att[a] == s.att[a].(reading := s.att[a].reading + |pe|)
  }

  /** The first i of the events pe hold size bytes and the rest are as they were read. */
  ghost predicate MadeUpTo(t: State, a: nat, pe: seq<nat>, i: nat, size: nat)
  {
    forall j :: 0 <= j < |pe| && pe[j] < |t.ev| ==>
      if j < i then t.ev[pe[j]] == NewEvent(t, a, size) && pe[j] !in t.raw else pe[j] in t.raw
  }

  ghost predicate Making(s: State, t: State, a: nat, pe: seq<nat>, i: nat, size: nat) {
    && Acquired(s, t, a, pe) && MadeUpTo(t, a, pe, i, size)
    && t.att[a] == s.att[a].(reading := s.att[a].reading + |pe|)
  }

  /** What et_events_new leaves behind. */
  ghost predicate NewDone(s: State, t: State, a: nat, pe: seq<nat>, size: nat, status: Status) {
    && Acquired(s, t, a, pe)
    && (status == OK ==> MadeUpTo(t, a, pe, |pe|, size))
    && t.att[a] == if status == OK then s.att[a].(make := s.att[a].make + |pe|)
                   else s.att[a].(lost := s.att[a].lost + |pe|)
  }

  /** What et_events_get leaves behind. */
  ghost predicate GetDone(s: State, t: State, a: nat, pe: seq<nat>, status: Status) {
    && Acquired(s, t, a, pe)
    && t.att[a] == if status == OK then s.att[a].(get := s.att[a].get + |pe|)
                   else s.att[a].(lost := s.att[a].lost + |pe|)
  }

  /** From s to t, the attachment kept what it had; of the events pe, at most the age
      changed and temp files were removed. */
  ghost predicate Handling(s: State, t: State, a: nat, pe: seq<nat>) {
    && Kept(s, t, a, pe) && SamePending(s, t, a) && a < |s.att| && t.att[a] == s.att[a]
    && OwnedBy(t.ev, a) == OwnedBy(s.ev, a)
    && forall j :: 0 <= j < |pe| && pe[j] < |s.ev| && s.ev[pe[j]].owner == a ==>
         && t.ev[pe[j]] == s.ev[pe[j]].(used := t.ev[pe[j]].used)
         && (pe[j] in t.raw <==> pe[j] in s.raw)
  }

  /** What et_events_put and et_events_dump leave behind when they succeed. */
  ghost predicate Returned(s: State, t: State, a: nat, pe: seq<nat>) {
    && Kept(s, t, a, pe) && SamePending(s, t, a)
    && AllOwnedBy(s, pe, a) && OwnedBy(t.ev, a) == OwnedBy(s.ev, a) - Elements(pe)
  }

  ghost predicate PutDone(s: State, t: State, a: nat, pe: seq<nat>) {
    Returned(s, t, a, pe) && a < |s.att| && t.att[a] == s.att[a].(put := s.att[a].put + |pe|)
  }

  ghost predicate DumpDone(s: State, t: State, a: nat, pe: seq<nat>) {
    Returned(s, t, a, pe) && a < |s.att| && t.att[a] == s.att[a].(dump := s.att[a].dump + |pe|)
  }

  ghost predicate Uncredited(s: State, t: State, a: nat, pe: seq<nat>) {
    Returned(s, t, a, pe) && a < |s.att| && t.att[a] == s.att[a].(writing := s.att[a].writing + |pe|)
  }

  /** Dumped, but neither credited nor taken off ntemps. */
  ghost predicate Unsettled(s: State, t: State, a: nat, pe: seq<nat>, temps: nat) {
    && Kept(s, t, a, pe) && AllOwnedBy(s, pe, a) && OwnedBy(t.ev, a) == OwnedBy(s.ev, a) - Elements(pe)
    && t.reserved[a] == s.reserved[a] && t.settling[a] == s.settling[a] + temps
    && a < |s.att| && t.att[a] == s.att[a].(writing := s.att[a].writing + |pe|)
  }

  predicate Own(s: State, a: nat, pe: seq<nat>) { a < |s.att| && AllOwnedBy(s, pe, a) }

  /** Of the events pe the first i have been removed as far as they had files, each once; no
      file has come. */
  ghost predicate Past(s: State, t: State, a: nat, pe: seq<nat>, i: nat) {
    && i <= |pe| && Removable(s, pe[..i])
    && forall e :: 0 <= e < |s.ev| && s.ev[e].owner == a && e in t.live ==> e in s.live
  }

  ghost predicate CheckedUpTo(s: State, a: nat, pe: seq<nat>, i: nat, lengths: bool) {
    forall j :: 0 <= j < i && j < |pe| ==>
      pe[j] < |s.ev| && s.ev[pe[j]].owner == a && (lengths ==> s.ev[pe[j]].length <= s.ev[pe[j]].memsize)
  }

  ghost predicate UsedUpTo(s: State, pe: seq<nat>, i: nat) {
    forall j :: 0 <= j < i && j < |pe| && pe[j] < |s.ev| ==> s.ev[pe[j]].used
  }

  /** The temp files of the first i events are gone; there were n of them. */
  ghost predicate RemovedUpTo(s: State, pe: seq<nat>, i: nat, n: nat) {
    && (forall j :: 0 <= j < i && j < |pe| && pe[j] < |s.ev| && s.ev[pe[j]].temp ==> pe[j] !in s.live)
    && i <= |pe| && n == |TempsOf(s.ev, pe[..i])|
  }

  predicate Fits(s: State, pe: seq<nat>) {
    forall i :: 0 <= i < |pe| && pe[i] < |s.ev| ==> s.ev[pe[i]].length <= s.ev[pe[i]].memsize
  }

  /** What a call for new events did besides reading: it fails with an error if and only if
      a temp file for one of them could not be made. */
  ghost predicate NotMade(a: nat, pe: seq<nat>, status: Status, lost: seq<Step>) {
    if status == ERROR then
      pe != [] && |lost| == 1 && lost[0].TempNotMade? && lost[0].a == a && lost[0].e in pe
    else
      lost == []
  }

  ghost predicate Tried(before: seq<Step>, now: seq<Step>, a: nat, pe: seq<nat>, status: Status, lost: seq<Step>) {
    Did(before, now, a, lost) && NotMade(a, pe, status, lost)
  }

  predicate HasTemp(ev: seq<Event>, pe: seq<nat>) {
    exists i :: 0 <= i < |pe| && pe[i] < |ev| && ev[pe[i]].temp
  }

  function ReadOf(a: nat, station: nat, pe: seq<nat>): seq<Step> { if pe == [] then [] else [Read(a, station, |pe|)] }

  class EtSystem {
    const eventSize: nat
    const maxTemps: nat
    const ev: array<Event>
    ghost const start: State
    var lists: seq<seq<nat>>
    var att: seq<Attachment>
    var ntemps: int
    var home: seq<nat>
    var raw: set<nat>
    var cleared: set<nat>
    var live: set<nat>
    var charged: set<nat>
    var reserved: multiset<nat>
    var settling: multiset<nat>
    var leaked: nat
    ghost var trace: seq<Step>

    /** A system just started: n blank events in GrandCentral's input list, and each
        attachment at a station. */
    constructor (n: nat, size: nat, temps: nat, stations: nat, at: seq<nat>)
      requires stations > 0 && forall a :: 0 <= a < |at| ==> at[a] < stations
      ensures Valid() && Started(Now()) && fresh(ev) && ev.Length == n
      ensures eventSize == size && maxTemps == temps && |att| == |at|
      ensures forall a :: 0 <= a < |at| ==> att[a].stat == at[a]
    {
      eventSize, maxTemps, ntemps, leaked := size, temps, 0, 0;
      var blank := Event(ET_SYS, false, false, false, 0, size);
      ev := new Event[n](i => blank);
      lists := seq(3 * stations, l requires 0 <= l < 3 * stations => if l == 0 then seq(n, e => e) else []);
      att := seq(|at|, a requires 0 <= a < |at| => Attachment(at[a], 0, 0, 0, 0, 0, 0, 0));
      home := seq(n, e => 0);
      raw, cleared, live, charged := {}, {}, {}, {};
      reserved, settling := multiset{}, multiset{};
      trace := [];
      start := State(size, temps, seq(n, e => blank), seq(3 * stations, l => if l == 0 then seq(n, e => e) else []),
                     seq(|at|, a requires 0 <= a < |at| => Attachment(at[a], 0, 0, 0, 0, 0, 0, 0)), 0,
                     seq(n, e => 0), {}, {}, {}, {}, multiset{}, multiset{}, 0);
      new;
      assert ev[..] == start.ev;
      assert lists == start.lists && att == start.att && home == start.home;
      assert Now() == start;
      StartedHolds(Now());
    }

    function Now(): State
      reads this`lists, this`att, this`ntemps, this`home, this`raw, this`cleared, this`live, this`charged
      reads this`reserved, this`settling, this`leaked, ev
    {
      State(eventSize, maxTemps, ev[..], lists, att, ntemps, home, raw, cleared, live, charged, reserved, settling, leaked)
    }

    ghost predicate Valid()
      reads this, ev
    {
      Recorded(start, trace, Now()) && Inv(Now())
    }

    ghost method Log(before: State, step: Step, a: nat)
      requires Recorded(start, trace, before) && Inv(before) && Enabled(before, step) && Now() == Apply(before, step)
      modifies this`trace
      ensures Valid() && if Acts(step, a) then Did(old(trace), trace, a, [step]) else Quiet(old(trace), trace, a)
      ensures trace == old(trace) + [step]
    {
      RecordOne(start, trace, before, step);
      OneAct(trace, step, a);
      trace := trace + [step];
    }

    method LoadEvents(s: seq<Event>)
      requires |s| == ev.Length
      modifies ev
      ensures ev[..] == s
    {
      forall e | 0 <= e < ev.Length { ev[e] := s[e]; }
    }

    method Load(s: State)
      requires |s.ev| == ev.Length && s.eventSize == eventSize && s.maxTemps == maxTemps
      modifies this, ev
      ensures Now() == s && trace == old(trace)
    {
      LoadEvents(s.ev);
      lists, att, ntemps, home, raw, cleared := s.lists, s.att, s.ntemps, s.home, s.raw, s.cleared;
      live, charged, reserved, settling, leaked := s.live, s.charged, s.reserved, s.settling, s.leaked;
    }

    /** One step of anyone but attachment a, if it can be taken now. */
    method Turn(a: nat, step: Step)
      requires Valid() && a < |att|
      modifies this, ev
      ensures Valid() && Quiet(old(trace), trace, a) && SameFor(old(Now()), Now(), a) && SameFiles(old(Now()), Now(), a)
    {
      if Actor(step) != a && Enabled(Now(), step) {
        ghost var before := Now();
        OthersLeaveMine(before, step, a);
        OthersLeaveFiles(before, step, a);
        Unconfigured(before, step);
        Load(Apply(Now(), step));
        Log(before, step, a);
      }
    }

    /** Anything the others may do meanwhile. */
    method Others(a: nat)
      requires Valid() && a < |att|
      modifies this, ev
      ensures Valid() && Quiet(old(trace), trace, a) && SameFor(old(Now()), Now(), a) && SameFiles(old(Now()), Now(), a)
    {
      ghost var before := Now();
      var steps: seq<Step> := *;
      for i := 0 to |steps|
        invariant Valid() && Quiet(old(trace), trace, a) && a < |att| && SameFor(before, Now(), a) && SameFiles(before, Now(), a)
      {
        ghost var between := Now();
        Turn(a, steps[i]);
        SameForThrough(before, between, Now(), a);
        SameFilesThrough(before, between, Now(), a);
      }
    }

    // ----- the pieces: what is done under one lock -----

    method Give(pe: seq<nat>, owner: int)
      requires forall i :: 0 <= i < |pe| ==> pe[i] < ev.Length
      modifies ev
      ensures ev[..] == Owners(old(ev[..]), pe, owner)
    {
      ghost var was := ev[..];
      assert ev[..] == Owners(was, pe[..0], owner);
      for i := 0 to |pe|
        invariant ev[..] == Owners(was, pe[..i], owner)
      {
        OwnersGrow(was, pe, i, owner);
        ev[pe[i]] := ev[pe[i]].(owner := owner);
      }
      assert pe[..|pe|] == pe;
    }

    method Count(a: nat, c: Attachment)
      requires a < |att|
      modifies this`att
      ensures att == old(att)[a := c]
    {
      att := att[a := c];
    }

    method Take(a: nat, station: nat, k: nat) returns (pe: seq<nat>)
      requires Shape(Now()) && CanRead(Now(), a, station, k)
      requires forall i :: 0 <= i < k ==> lists[In(station)][i] < ev.Length
      modifies this`lists, this`raw, this`att, ev
      ensures pe == old(lists[In(station)])[..k] && Now() == AfterRead(old(Now()), a, station, k)
    {
      ghost var before := Now();
      pe := lists[In(station)][..k];
      Give(pe, a);
      Unlist(a, station, pe);
      assert |pe| == k;
      assert att == before.att[a := before.att[a].(reading := before.att[a].reading + k)];
      TakenIs(before, Now(), a, station, k, pe);
    }

    method Unlist(a: nat, station: nat, pe: seq<nat>)
      requires a < |att| && In(station) < |lists| && |pe| <= |lists[In(station)]|
      modifies this`lists, this`raw, this`att
      ensures lists == old(lists)[In(station) := old(lists)[In(station)][|pe|..]]
      ensures raw == if station == 0 then old(raw) + Elements(pe) else old(raw)
      ensures att == old(att)[a := old(att)[a].(reading := old(att)[a].reading + |pe|)]
    {
      lists := lists[In(station) := lists[In(station)][|pe|..]];
      if station == 0 { raw := raw + Elements(pe); }
      Count(a, att[a].(reading := att[a].reading + |pe|));
    }

    method ReadSome(a: nat, station: nat, k: nat) returns (pe: seq<nat>)
      requires Valid() && CanRead(Now(), a, station, k)
      modifies this, ev
      ensures Valid() && Did(old(trace), trace, a, [Read(a, station, k)]) && trace == old(trace) + [Read(a, station, k)]
      ensures pe == old(lists[In(station)])[..k] && Now() == AfterRead(old(Now()), a, station, k)
    {
      ghost var before := Now();
      assert ListHolds(before, In(station), before.lists[In(station)]);
      pe := Take(a, station, k);
      Log(before, Read(a, station, k), a);
    }

    /** et_station_nread. It may also give up: nothing there, list busy, told to stop. */
    method StationNread(a: nat, station: nat, num: int) returns (ok: bool, pe: seq<nat>)
      requires Valid() && a < |att| && Hands(station) < |lists|
      modifies this, ev
      ensures Valid() && if num >= 1 && ok then Did(old(trace), trace, a, [Read(a, station, |pe|)]) else Quiet(old(trace), trace, a)
      ensures num < 1 ==> ok && pe == [] && Now() == old(Now())
      ensures num >= 1 && ok ==>
        && |pe| <= num && CanRead(old(Now()), a, station, |pe|)
        && pe == old(lists[In(station)])[..|pe|] && Now() == AfterRead(old(Now()), a, station, |pe|)
      ensures num >= 1 && ok ==> Taken(old(Now()), Now(), station, pe) && trace == old(trace) + [Read(a, station, |pe|)]
      ensures !ok ==> pe == [] && Now() == old(Now())
    {
      if num < 1 { return true, []; }
      var givesUp: bool := *;
      var cnt := |lists[In(station)]|;
      if givesUp || cnt < 1 { return false, []; }
      var k := if num > cnt then cnt else num;
      pe := ReadSome(a, station, k);
      ok := true;
    }

    method Place(pe: seq<nat>, l: nat, contents: seq<nat>)
      requires Shape(Now()) && l < |lists| && forall i :: 0 <= i < |pe| ==> pe[i] < ev.Length
      modifies this`lists, this`home, ev
      ensures Now() == Placed(old(Now()), pe, l, contents)
    {
      lists := lists[l := contents];
      Give(pe, ET_SYS);
      home := Homes(home, pe, l);
    }

    method Put(a: nat, pe: seq<nat>)
      requires Shape(Now()) && a < |att| && forall i :: 0 <= i < |pe| ==> pe[i] < ev.Length
      modifies this`lists, this`home, this`raw, this`att, ev
      ensures Now() == AfterWrite(old(Now()), a, pe)
    {
      var l := Out(att[a].stat);
      Place(pe, l, ByPriority(lists[l] + pe, Highs(ev[..])));
      Note(a, pe);
    }

    method Note(a: nat, pe: seq<nat>)
      requires a < |att|
      modifies this`raw, this`att
      ensures Now() == Noted(old(Now()), a, pe)
    {
      raw := raw - Elements(pe);
      Count(a, att[a].(writing := att[a].writing + |pe|));
    }

    /** et_station_nwrite. The room it asks for is always there. */
    method StationNwrite(a: nat, pe: seq<nat>) returns (ok: bool)
      requires Valid() && CanReturn(Now(), a, pe)
      modifies this, ev
      ensures Valid() && Did(old(trace), trace, a, [Write(a, pe)]) && trace == old(trace) + [Write(a, pe)]
      ensures ok && Now() == AfterWrite(old(Now()), a, pe)
      ensures WroteTo(old(Now()), Now(), old(att)[a].stat, pe)
    {
      Wrote(Now(), a, pe);
      AlwaysRoom(Now(), pe, a, Out(att[a].stat));
      if |pe| > ev.Length - |lists[Out(att[a].stat)]| { return false; }
      WriteSome(a, pe);
      ok := true;
    }

    method WriteSome(a: nat, pe: seq<nat>)
      requires Valid() && CanReturn(Now(), a, pe)
      modifies this, ev
      ensures Valid() && Did(old(trace), trace, a, [Write(a, pe)]) && trace == old(trace) + [Write(a, pe)]
      ensures Now() == AfterWrite(old(Now()), a, pe)
    {
      ghost var before := Now();
      WriteIsStep(before, a, pe);
      Put(a, pe);
      Log(before, Write(a, pe), a);
    }

    method PutBack(a: nat, pe: seq<nat>)
      requires Shape(Now()) && a < |att| && forall i :: 0 <= i < |pe| ==> pe[i] < ev.Length
      modifies this`lists, this`home, this`raw, this`charged, this`settling, this`att, ev
      ensures Now() == AfterDump(old(Now()), a, pe)
    {
      ghost var before := Now();
      var temps := |TempsOf(ev[..], pe)|;
      Place(pe, 0, lists[0] + pe);
      Forget(a, pe, temps);
      assert Now() == AfterDump(before, a, pe);
    }

    method Forget(a: nat, pe: seq<nat>, temps: nat)
      requires a < |att|
      modifies this`raw, this`charged, this`settling, this`att
      ensures raw == old(raw) - Elements(pe) && charged == old(charged) - Elements(pe)
      ensures settling == old(settling)[a := old(settling)[a] + temps]
      ensures att == old(att)[a := old(att)[a].(writing := old(att)[a].writing + |pe|)]
    {
      raw, charged := raw - Elements(pe), charged - Elements(pe);
      settling := settling[a := settling[a] + temps];
      Count(a, att[a].(writing := att[a].writing + |pe|));
    }

    /** et_station_ndump. The room it asks for is always there. */
    method StationNdump(a: nat, pe: seq<nat>) returns (ok: bool)
      requires Valid() && CanReturn(Now(), a, pe) && TempsOf(ev[..], pe) !! live
      modifies this, ev
      ensures Valid() && Did(old(trace), trace, a, [Dump(a, pe)]) && trace == old(trace) + [Dump(a, pe)]
      ensures ok && Now() == AfterDump(old(Now()), a, pe) && lists == old(lists)[0 := old(lists)[0] + pe]
    {
      AlwaysRoom(Now(), pe, a, 0);
      if |pe| > ev.Length - |lists[0]| { return false; }
      DumpSome(a, pe);
      ok := true;
    }

    method DumpSome(a: nat, pe: seq<nat>)
      requires Valid() && CanReturn(Now(), a, pe) && TempsOf(ev[..], pe) !! live
      modifies this, ev
      ensures Valid() && Did(old(trace), trace, a, [Dump(a, pe)]) && trace == old(trace) + [Dump(a, pe)]
      ensures Now() == AfterDump(old(Now()), a, pe)
    {
      ghost var before := Now();
      DumpIsStep(before, a, pe);
      PutBack(a, pe);
      Log(before, Dump(a, pe), a);
    }

    // ----- making events -----

    method Reserved(a: nat)
      requires Valid() && a < |att| && ntemps < maxTemps
      modifies this`ntemps, this`reserved, this`trace
      ensures Valid() && Quiet(old(trace), trace, a) && Now() == Apply(old(Now()), Reserve(a))
    {
      ghost var before := Now();
      CountClaim(a);
      Log(before, Reserve(a), a);
    }

    method CountClaim(a: nat)
      requires Shape(Now()) && Enabled(Now(), Reserve(a))
      modifies this`ntemps, this`reserved
      ensures Now() == Apply(old(Now()), Reserve(a))
    {
      ntemps := ntemps + 1;
      reserved := reserved[a := reserved[a] + 1];
    }

    method NotCreated(a: nat, e: nat, gone: bool)
      requires Valid() && a < |att| && reserved[a] > 0 && e in raw && Owns(Now(), a, e)
      modifies this`reserved, this`leaked, this`live, this`trace
      ensures Valid() && Did(old(trace), trace, a, [TempNotMade(a, e, gone)])
      ensures Now() == Apply(old(Now()), TempNotMade(a, e, gone))
    {
      ghost var before := Now();
      LoseClaim(a, e, gone);
      Log(before, TempNotMade(a, e, gone), a);
    }

    method LoseClaim(a: nat, e: nat, gone: bool)
      requires Shape(Now()) && Enabled(Now(), TempNotMade(a, e, gone))
      modifies this`reserved, this`leaked, this`live
      ensures Now() == Apply(old(Now()), TempNotMade(a, e, gone))
    {
      reserved := reserved[a := reserved[a] - 1];
      leaked := leaked + 1;
      if gone { live := live - {e}; }
    }

    method Created(a: nat, e: nat, size: nat)
      requires Valid() && a < |att| && reserved[a] > 0 && e in raw && Owns(Now(), a, e) && size > eventSize
      modifies this`reserved, this`raw, this`live, this`charged, this`trace, ev
      ensures Valid() && Quiet(old(trace), trace, a) && Now() == Apply(old(Now()), TempMade(a, e, size))
    {
      ghost var before := Now();
      TempOf(a, e, size);
      Log(before, TempMade(a, e, size), a);
    }

    method TempOf(a: nat, e: nat, size: nat)
      requires Shape(Now()) && reserved[a] > 0 && e in raw && Owns(Now(), a, e) && size > eventSize
      modifies this`reserved, this`raw, this`live, this`charged, ev
      ensures Now() == Apply(old(Now()), TempMade(a, e, size))
    {
      ghost var before := Now();
      Initialise(e, true, size, size);
      live, charged := live + {e}, charged + {e};
      reserved := reserved[a := reserved[a] - 1];
      assert ev[..] == before.ev[e := Fresh(before.ev[e], true, size, size)];
    }

    /** et_init_event_ and the lines after it. */
    method Initialise(e: nat, temp: bool, length: nat, memsize: nat)
      requires e < ev.Length
      modifies this`raw, ev
      ensures ev[..] == old(ev[..])[e := Fresh(old(ev[e]), temp, length, memsize)] && raw == old(raw) - {e}
    {
      ev[e] := Fresh(ev[e], temp, length, memsize);
      raw := raw - {e};
    }

    /** The first half of et_event_make: claim one of the temp events there may be. */
    method ClaimTemp(a: nat) returns (claimed: bool)
      requires Valid() && a < |att|
      modifies this, ev
      ensures Valid() && Quiet(old(trace), trace, a)
      ensures if claimed then Claimed(old(Now()), Now(), a) else SameFor(old(Now()), Now(), a) && ntemps >= maxTemps
    {
      ghost var s0 := Now();
      Others(a);
      if ntemps >= maxTemps { return false; }
      ghost var s1 := Now();
      Reserved(a);
      ClaimOne(s0, s1, Now(), a);
      claimed := true;
    }

    /** The second half of et_event_make: create the file. */
    method CreateTemp(a: nat, e: nat, size: nat, ghost s0: State) returns (status: Status, ghost lost: seq<Step>)
      requires Valid() && a < |s0.att| && Claimed(s0, Now(), a) && size > s0.eventSize
      requires a < |att| && reserved[a] > 0 && e in raw && Owns(Now(), a, e)
      modifies this, ev
      ensures Valid() && Tried(old(trace), trace, a, [e], status, lost) && status != TOOMANY
      ensures if status == OK then MadeOne(s0, Now(), a, e, size) else SameFor(s0, Now(), a)
    {
      ghost var s1 := Now();
      var created: bool, gone: bool := *, *;
      if created {
        Created(a, e, size);
        ClaimUsed(s0, s1, Now(), a, e, size);
        status, lost := OK, [];
      } else {
        NotCreated(a, e, gone);
        ClaimLost(s0, s1, Now(), a, e, gone);
        status, lost := ERROR, [TempNotMade(a, e, gone)];
      }
    }

    /** et_event_make. A temp file that cannot be created stays counted. */
    method EventMake(a: nat, e: nat, size: nat) returns (status: Status, ghost lost: seq<Step>)
      requires Valid() && a < |att| && e in raw && Owns(Now(), a, e) && size > eventSize
      modifies this, ev
      ensures Valid() && Tried(old(trace), trace, a, [e], status, lost)
      ensures if status == OK then MadeOne(old(Now()), Now(), a, e, size) else SameFor(old(Now()), Now(), a)
      ensures status == TOOMANY ==> ntemps >= maxTemps
    {
      ghost var s0, t0 := Now(), trace;
      lost := [];
      var claimed := ClaimTemp(a);
      if !claimed { return TOOMANY, lost; }
      ghost var s1 := Now();
      Others(a);
      MeetsClaim(s0, s1, Now(), a);
      ClaimOwns(s0, Now(), a, e);
      ghost var t1 := trace;
      status, lost := CreateTemp(a, e, size, s0);
      ThenDid(t0, t1, trace, a, lost);
    }

    /** et_init_event_ and the lines after it, for an event of ordinary size. */
    method InitEvent(a: nat, e: nat, size: nat)
      requires Valid() && a < |att| && e in raw && Owns(Now(), a, e) && size <= eventSize
      modifies this`raw, this`trace, ev
      ensures Valid() && Quiet(old(trace), trace, a)
      ensures MadeOne(old(Now()), Now(), a, e, size)
    {
      ghost var before := Now();
      Initialise(e, false, size, eventSize);
      Log(before, Normal(a, e, size), a);
      SameOwners(before.ev, ev[..]);
    }

    /** The loop of et_events_new. It tries again for temp events for a while. */
    method MakeAll(a: nat, pe: seq<nat>, size: nat, ghost s0: State) returns (status: Status, ghost lost: seq<Step>)
      requires Valid() && Making(s0, Now(), a, pe, 0, size)
      modifies this, ev
      ensures Valid() && Tried(old(trace), trace, a, pe, status, lost) && (size <= eventSize ==> status == OK)
      ensures status == OK ==> Making(s0, Now(), a, pe, |pe|, size)
      ensures status != OK ==> exists i :: Making(s0, Now(), a, pe, i, size)
    {
      status, lost := OK, [];
      ghost var t0 := trace;
      for i := 0 to |pe|
        invariant Valid() && status == OK && Tried(t0, trace, a, pe, OK, lost) && Making(s0, Now(), a, pe, i, size)
      {
        ghost var t1 := trace;
        status, lost := MakeNext(a, pe, i, size, s0);
        ThenDid(t0, t1, trace, a, lost);
        if status != OK { return; }
      }
    }

    method MakeNext(a: nat, pe: seq<nat>, i: nat, size: nat, ghost s0: State)
      returns (status: Status, ghost lost: seq<Step>)
      requires Valid() && Making(s0, Now(), a, pe, i, size) && i < |pe|
      modifies this, ev
      ensures Valid() && Tried(old(trace), trace, a, pe, status, lost) && (size <= eventSize ==> status == OK)
      ensures Making(s0, Now(), a, pe, if status == OK then i + 1 else i, size)
    {
      ghost var s1 := Now();
      if size > eventSize {
        status, lost := TryMake(a, pe[i], size);
      } else {
        InitEvent(a, pe[i], size);
        status, lost := OK, [];
      }
      if status == OK {
        MakingOne(s0, s1, Now(), a, pe, i, size);
      } else {
        MakingStays(s0, s1, Now(), a, pe, i, size);
      }
    }

    method TryMake(a: nat, e: nat, size: nat) returns (status: Status, ghost lost: seq<Step>)
      requires Valid() && a < |att| && e in raw && Owns(Now(), a, e) && size > eventSize
      modifies this, ev
      ensures Valid() && Tried(old(trace), trace, a, [e], status, lost)
      ensures if status == OK then MadeOne(old(Now()), Now(), a, e, size) else SameFor(old(Now()), Now(), a)
    {
      ghost var s0, t0 := Now(), trace;
      status, lost := EventMake(a, e, size);
      var tries: nat := *;
      while status == TOOMANY && tries > 0
        invariant Valid() && Tried(t0, trace, a, [e], status, lost) && a < |att|
        invariant if status == OK then MadeOne(s0, Now(), a, e, size) else SameFor(s0, Now(), a)
        decreases tries
      {
        ghost var s1, t1 := Now(), trace;
        status, lost := EventMake(a, e, size);
        MadeAfterAll(s0, s1, Now(), a, e, size, status);
        ThenDid(t0, t1, trace, a, lost);
        tries := tries - 1;
      }
    }

    /** Read from a station's input list, after whatever the others do first. */
    method Acquire(a: nat, station: nat, num: int, size: nat)
      returns (ok: bool, pe: seq<nat>, ghost at: State, ghost after: State)
      requires Valid() && a < |att| && Hands(station) < |lists|
      modifies this, ev
      ensures Valid() && Did(old(trace), trace, a, ReadOf(a, station, pe))
      ensures |pe| <= if num < 0 then 0 else num
      ensures !ok ==> pe == [] && SameFor(old(Now()), Now(), a)
      ensures ok ==> AcquiredAll(old(Now()), Now(), a, pe) && (station == 0 ==> Making(old(Now()), Now(), a, pe, 0, size))
      ensures ok && num > 0 ==> |pe| > 0
      ensures Drew(start, old(trace), trace, at, after, station, pe)
    {
      ghost var s0, t0 := Now(), trace;
      Others(a);
      ghost var t1 := trace;
      at := Now();
      ok, pe := AcquireNow(a, station, num, size, s0);
      after := Now();
      ThenDid(t0, t1, trace, a, ReadOf(a, station, pe));
      DrewEarlier(start, t0, t1, trace, trace, at, after, station, pe);
    }

    method AcquireNow(a: nat, station: nat, num: int, size: nat, ghost s0: State) returns (ok: bool, pe: seq<nat>)
      requires Valid() && a < |att| && Hands(station) < |lists| && a < |s0.att| && SameFor(s0, Now(), a)
      modifies this, ev
      ensures Valid() && Did(old(trace), trace, a, ReadOf(a, station, pe))
      ensures |pe| <= if num < 0 then 0 else num
      ensures !ok ==> pe == [] && SameFor(s0, Now(), a)
      ensures ok ==> AcquiredAll(s0, Now(), a, pe) && (station == 0 ==> Making(s0, Now(), a, pe, 0, size))
      ensures ok && num > 0 ==> |pe| > 0
      ensures Drew(start, old(trace), trace, old(Now()), Now(), station, pe)
    {
      ghost var s1, t1 := Now(), trace;
      ok, pe := StationNread(a, station, num);
      if ok && num >= 1 {
        JustPassed(start, t1, t1, Read(a, station, |pe|), trace, s1, Now());
        ReadAcquiresAll(s0, s1, a, station, |pe|, pe, size);
      } else if ok {
        NothingAcquiredAll(s0, s1, a, size);
      }
    }

    method CountMade(a: nat, k: nat)
      requires Valid() && a < |att| && k <= att[a].reading
      modifies this`att, this`trace
      ensures Valid() && Quiet(old(trace), trace, a) && Now() == Apply(old(Now()), CreditMake(a, k))
    {
      ghost var before := Now();
      Count(a, att[a].(reading := att[a].reading - k, make := att[a].make + k));
      Log(before, CreditMake(a, k), a);
    }

    method CountGotten(a: nat, k: nat)
      requires Valid() && a < |att| && k <= att[a].reading
      modifies this`att, this`trace
      ensures Valid() && Quiet(old(trace), trace, a) && Now() == Apply(old(Now()), CreditGet(a, k))
    {
      ghost var before := Now();
      Count(a, att[a].(reading := att[a].reading - k, get := att[a].get + k));
      Log(before, CreditGet(a, k), a);
    }

    method CountNothing(a: nat, k: nat)
      requires Valid() && a < |att| && k <= att[a].reading
      modifies this`att, this`trace
      ensures Valid() && Quiet(old(trace), trace, a) && Now() == Apply(old(Now()), Abandon(a, k))
    {
      ghost var before := Now();
      Count(a, att[a].(reading := att[a].reading - k, lost := att[a].lost + k));
      Log(before, Abandon(a, k), a);
    }

    method Fill(a: nat, pe: seq<nat>, size: nat, ghost s0: State) returns (status: Status, ghost lost: seq<Step>)
      requires Valid() && Making(s0, Now(), a, pe, 0, size)
      modifies this, ev
      ensures Valid() && Tried(old(trace), trace, a, pe, status, lost) && NewDone(s0, Now(), a, pe, size, status)
      ensures size <= eventSize ==> status == OK
    {
      status, lost := MakeAll(a, pe, size, s0);
      ghost var s1 := Now();
      if status == OK {
        CountMade(a, |pe|);
        MakeCredited(s0, s1, Now(), a, pe, size);
      } else {
        CountNothing(a, |pe|);
        Abandoned(s0, s1, Now(), a, pe, size, status);
      }
    }

    /** et_events_new, once it is known how many events to ask for. */
    method NewSome(a: nat, num: nat, size: nat)
      returns (status: Status, pe: seq<nat>, ghost lost: seq<Step>, ghost at: State, ghost after: State)
      requires Valid() && a < |att|
      modifies this, ev
      ensures Valid() && Did(old(trace), trace, a, ReadOf(a, 0, pe) + lost)
      ensures |pe| <= num && (if |pe| > 0 then NotMade(a, pe, status, lost) else lost == [])
      ensures (status == OK && num > 0 ==> |pe| > 0) && (|pe| > 0 && status != OK ==> size > eventSize)
      ensures NewDone(old(Now()), Now(), a, pe, size, status)
      ensures Drew(start, old(trace), trace, at, after, 0, pe)
    {
      ghost var s0, t0 := Now(), trace;
      lost := [];
      var ok;
      ok, pe, at, after := Acquire(a, 0, num, size);
      ghost var t1 := trace;
      if !ok {
        NothingAcquired(s0, Now(), a);
        assert ReadOf(a, 0, pe) + lost == ReadOf(a, 0, pe);
        return NOTREAD, pe, lost, at, after;
      }
      status, lost := Fill(a, pe, size, s0);
      DrewEarlier(start, t0, t0, t1, trace, at, after, 0, pe);
      DidBoth(t0, t1, trace, a, ReadOf(a, 0, pe), lost);
    }

    /** et_events_new. When it fails after the read, pe still names the events that
        were read: they stay with the caller, and no counter mentions them. The events are the
        first of GrandCentral's input list. */
    method EventsNew(a: nat, wanted: int, size: nat)
      returns (status: Status, pe: seq<nat>, nread: nat, ghost lost: seq<Step>, ghost at: State, ghost after: State)
      requires Valid() && a < |att|
      modifies this, ev
      ensures Valid() && Did(old(trace), trace, a, ReadOf(a, 0, pe) + lost)
      ensures if |pe| > 0 then NotMade(a, pe, status, lost) else lost == []
      ensures wanted == 0 ==> status == OK && Now() == old(Now())
      ensures wanted < 0 ==> status == ERROR && Now() == old(Now())
      ensures nread == (if status == OK then |pe| else 0) && |pe| <= if wanted < 0 then 0 else wanted
      ensures size > eventSize ==> |pe| <= maxTemps
      ensures status == OK && wanted > 0 && (size <= eventSize || maxTemps > 0) ==> nread > 0
      ensures |pe| > 0 && status != OK ==> size > eventSize
      ensures NewDone(old(Now()), Now(), a, pe, size, status)
      ensures Drew(start, old(trace), trace, at, after, 0, pe)
    {
      ghost var s0 := Now();
      pe, nread, lost, at, after := [], 0, [], s0, s0;
      NothingAcquired(s0, s0, a);
      if wanted == 0 { return OK, pe, nread, lost, at, after; }
      if wanted < 0 { return ERROR, pe, nread, lost, at, after; }
      var num := if eventSize < size && maxTemps < wanted then maxTemps else wanted;
      status, pe, lost, at, after := NewSome(a, num, size);
      nread := if status == OK then |pe| else 0;
    }

    /** The loop of et_events_get: temp events are mapped, which may fail. */
    method MapAll(pe: seq<nat>) returns (mapped: bool)
      requires forall i :: 0 <= i < |pe| ==> pe[i] < ev.Length
      ensures mapped || HasTemp(Now().ev, pe)
    {
      mapped := true;
      for i := 0 to |pe|
        invariant mapped || HasTemp(Now().ev, pe)
      {
        if mapped && ev[pe[i]].temp { mapped := *; }
      }
    }

    method Map(a: nat, pe: seq<nat>, ghost s0: State) returns (status: Status)
      requires Valid() && AcquiredAll(s0, Now(), a, pe)
      modifies this`att, this`trace
      ensures Valid() && Quiet(old(trace), trace, a) && GetDone(s0, Now(), a, pe, status)
      ensures status == OK || HasTemp(Now().ev, pe)
    {
      var mapped := MapAll(pe);
      ghost var s1 := Now();
      if mapped {
        CountGotten(a, |pe|);
        GetCredited(s0, s1, Now(), a, pe);
        status := OK;
      } else {
        CountNothing(a, |pe|);
        Abandoned(s0, s1, Now(), a, pe, 0, ERROR);
        status := ERROR;
      }
    }

    /** et_events_get, when it reads. */
    method GetSome(a: nat, num: nat) returns (status: Status, pe: seq<nat>, ghost at: State, ghost after: State)
      requires Valid() && a < |att| && num > 0
      modifies this, ev
      ensures Valid() && Did(old(trace), trace, a, ReadOf(a, old(att)[a].stat, pe))
      ensures |pe| <= num && (status == OK ==> |pe| > 0) && (|pe| > 0 && status != OK ==> HasTemp(Now().ev, pe))
      ensures GetDone(old(Now()), Now(), a, pe, status)
      ensures Drew(start, old(trace), trace, at, after, old(att)[a].stat, pe)
    {
      ghost var s0, t0 := Now(), trace;
      var ok, station := false, att[a].stat;
      ok, pe, at, after := Acquire(a, station, num, 0);
      ghost var t1 := trace;
      if ok {
        status := Map(a, pe, s0);
        DrewEarlier(start, t0, t0, t1, trace, at, after, station, pe);
      } else {
        NothingAcquired(s0, Now(), a);
        status := NOTREAD;
      }
    }

    /** et_events_get. The events are the first of the input list of the attachment's station. */
    method EventsGet(a: nat, wanted: int) returns (status: Status, pe: seq<nat>, nread: nat, ghost at: State, ghost after: State)
      requires Valid() && a < |att|
      modifies this, ev
      ensures Valid() && Did(old(trace), trace, a, ReadOf(a, old(att)[a].stat, pe))
      ensures wanted == 0 ==> status == OK && Now() == old(Now())
      ensures wanted < 0 || (wanted > 0 && old(att)[a].stat == 0) ==> status == ERROR && Now() == old(Now())
      ensures nread == (if status == OK then |pe| else 0) && |pe| <= if wanted < 0 then 0 else wanted
      ensures status == OK && wanted > 0 ==> nread > 0
      ensures |pe| > 0 && status != OK ==> HasTemp(Now().ev, pe)
      ensures GetDone(old(Now()), Now(), a, pe, status)
      ensures Drew(start, old(trace), trace, at, after, old(att)[a].stat, pe)
    {
      ghost var s0 := Now();
      pe, nread, at, after := [], 0, s0, s0;
      NothingAcquired(s0, s0, a);
      if wanted == 0 { return OK, pe, nread, at, after; }
      if wanted < 0 || att[a].stat == 0 { return ERROR, pe, nread, at, after; }
      status, pe, at, after := GetSome(a, wanted);
      nread := if status == OK then |pe| else 0;
    }

    // ----- returning events -----

    /** The first loop of et_events_put and et_events_dump. Only a put looks at lengths. */
    method Check(a: nat, pe: seq<nat>, lengths: bool) returns (ok: bool)
      requires Valid() && a < |att| && forall i :: 0 <= i < |pe| ==> pe[i] < ev.Length
      modifies this, ev
      ensures Valid() && Quiet(old(trace), trace, a) && SameFor(old(Now()), Now(), a) && SameFiles(old(Now()), Now(), a)
      ensures ok <==> AllOwnedBy(old(Now()), pe, a) && (lengths ==> Fits(old(Now()), pe))
    {
      ghost var s0 := Now();
      Others(a);
      for i := 0 to |pe|
        invariant Valid() && Quiet(old(trace), trace, a) && a < |att| && SameFor(s0, Now(), a) && SameFiles(s0, Now(), a)
        invariant CheckedUpTo(s0, a, pe, i, lengths)
      {
        CheckOne(s0, Now(), a, pe, i, lengths);
        if ev[pe[i]].owner != a { return false; }
        if lengths && ev[pe[i]].length > ev[pe[i]].memsize { return false; }
        ghost var s1 := Now();
        Others(a);
        SameForThrough(s0, s1, Now(), a);
        SameFilesThrough(s0, s1, Now(), a);
      }
      ok := true;
    }

    method Used(a: nat, e: nat)
      requires Valid() && a < |att| && Owns(Now(), a, e)
      modifies this`trace, ev
      ensures Valid() && Did(old(trace), trace, a, [Age(a, e, true)]) && Now() == Apply(old(Now()), Age(a, e, true))
    {
      ghost var before := Now();
      ev[e] := ev[e].(used := true);
      Log(before, Age(a, e, true), a);
    }

    /** The second loop of et_events_put: unmap temp events, which may fail, and set the age. */
    method AgeAll(a: nat, pe: seq<nat>) returns (ok: bool, n: nat)
      requires Valid() && Own(Now(), a, pe)
      modifies this, ev
      ensures Valid() && n <= |pe| && (ok ==> n == |pe|) && Did(old(trace), trace, a, Ages(a, pe[..n]))
      ensures Handling(old(Now()), Now(), a, pe)
      ensures ok ==> UsedUpTo(Now(), pe, |pe|)
    {
      ghost var s0, t0 := Now(), trace;
      n := 0;
      assert Ages(a, pe[..0]) == [];
      while n < |pe|
        invariant n <= |pe| && Valid() && Did(t0, trace, a, Ages(a, pe[..n]))
        invariant Handling(s0, Now(), a, pe) && UsedUpTo(Now(), pe, n)
      {
        ok := AgeOne(a, pe, n, s0, t0);
        if !ok { return; }
        n := n + 1;
      }
      ok := true;
    }

    method AgeOne(a: nat, pe: seq<nat>, i: nat, ghost s0: State, ghost t0: seq<Step>) returns (ok: bool)
      requires Valid() && Own(s0, a, pe) && i < |pe| && Did(t0, trace, a, Ages(a, pe[..i]))
      requires Handling(s0, Now(), a, pe) && UsedUpTo(Now(), pe, i)
      modifies this, ev
      ensures Valid() && Did(t0, trace, a, Ages(a, pe[..if ok then i + 1 else i]))
      ensures Handling(s0, Now(), a, pe) && (ok ==> UsedUpTo(Now(), pe, i + 1))
    {
      var mapped: bool := *;
      HandlingOwns(s0, Now(), a, pe, i);
      if ev[pe[i]].temp && !mapped { return false; }
      ghost var s1, t1 := Now(), trace;
      Used(a, pe[i]);
      AgesMore(a, pe, i);
      DidBoth(t0, t1, trace, a, Ages(a, pe[..i]), [Age(a, pe[i], true)]);
      HandledOne(s0, s1, Now(), a, pe, i);
      ghost var s2 := Now();
      Others(a);
      HandlingStays(s0, s2, Now(), a, pe, i + 1);
      ok := true;
    }

    method CountPut(a: nat, k: nat)
      requires Valid() && a < |att| && k <= att[a].writing
      modifies this`att, this`trace
      ensures Valid() && Quiet(old(trace), trace, a) && Now() == Apply(old(Now()), CreditPut(a, k))
    {
      ghost var before := Now();
      Count(a, att[a].(writing := att[a].writing - k, put := att[a].put + k));
      Log(before, CreditPut(a, k), a);
    }

    method CountDumped(a: nat, k: nat)
      requires Valid() && a < |att| && k <= att[a].writing
      modifies this`att, this`trace
      ensures Valid() && Quiet(old(trace), trace, a) && Now() == Apply(old(Now()), CreditDump(a, k))
    {
      ghost var before := Now();
      Count(a, att[a].(writing := att[a].writing - k, dump := att[a].dump + k));
      Log(before, CreditDump(a, k), a);
    }

    /** et_events_put, for any events. `at` is what its write has found, and `after` what it
        left. If that breaks the invariants, what others then do is not followed. */
    method EventsPut(a: nat, pe: seq<nat>) returns (status: Status, ghost n: nat, ghost at: State, ghost after: State)
      requires Valid() && a < |att| && forall i :: 0 <= i < |pe| ==> pe[i] < ev.Length
      modifies this, ev
      ensures n <= |pe| && (|pe| == 0 ==> status == OK && Valid() && Now() == old(Now()))
      ensures |pe| > 0 && !(AllOwnedBy(old(Now()), pe, a) && Fits(old(Now()), pe)) ==>
                status == ERROR && SameFor(old(Now()), Now(), a)
      ensures |pe| > 0 && status == OK ==> AllOwnedBy(old(Now()), pe, a)
      ensures status != OK ==> Valid() && Did(old(trace), trace, a, Ages(a, pe[..n]) + [])
      ensures status != OK ==> Handling(old(Now()), Now(), a, pe)
      ensures |pe| > 0 && status == OK && CanReturn(old(Now()), a, pe) ==>
        Valid() && Did(old(trace), trace, a, Ages(a, pe) + [Write(a, pe)]) && PutDone(old(Now()), Now(), a, pe)
      ensures |pe| > 0 && status == OK && CanReturn(old(Now()), a, pe) ==> Passed(start, old(trace), trace, at, after)
      ensures |pe| > 0 && status == OK ==> Handling(old(Now()), at, a, pe) && UsedUpTo(at, pe, |pe|)
      ensures |pe| > 0 && status == OK ==> WroteTo(at, after, old(att)[a].stat, pe)
      ensures |pe| > 0 && status == OK && !CanReturn(old(Now()), a, pe) ==>
        Inv(at) && Now() == after == AfterWrite(at, a, pe) && !Inv(Now())
    {
      n, at, after := 0, Now(), Now();
      if |pe| == 0 { return OK, n, at, after; }
      ghost var s0, t0 := Now(), trace;
      var ok := Check(a, pe, true);
      ghost var s1, t1 := Now(), trace;
      if !ok {
        NothingDone(t0, trace, a, pe);
        return ERROR, n, at, after;
      }
      status, n, at, after := PutAll(a, pe);
      AfterCheck(s0, s1, Now(), at, a, pe);
      if status == OK && CanReturn(s0, a, pe) { PassedEarlier(start, t0, t1, trace, trace, at, after); }
      if status != OK || CanReturn(s0, a, pe) {
        ThenDid(t0, t1, trace, a, Ages(a, if status == OK then pe else pe[..n]) + if status == OK then [Write(a, pe)] else []);
      }
    }

    /** et_events_put, once the events are known to be the caller's. */
    method PutAll(a: nat, pe: seq<nat>) returns (status: Status, ghost n: nat, ghost at: State, ghost after: State)
      requires Valid() && Own(Now(), a, pe)
      modifies this, ev
      ensures n <= |pe|
      ensures status != OK ==> Valid() && Did(old(trace), trace, a, Ages(a, pe[..n]) + [])
      ensures status != OK ==> Handling(old(Now()), Now(), a, pe)
      ensures status == OK && CanReturn(old(Now()), a, pe) ==>
        Valid() && Did(old(trace), trace, a, Ages(a, pe) + [Write(a, pe)]) && PutDone(old(Now()), Now(), a, pe)
      ensures status == OK && CanReturn(old(Now()), a, pe) ==> Passed(start, old(trace), trace, at, after)
      ensures status == OK ==> Handling(old(Now()), at, a, pe) && UsedUpTo(at, pe, |pe|)
      ensures status == OK ==> WroteTo(at, after, old(att)[a].stat, pe)
      ensures status == OK && !CanReturn(old(Now()), a, pe) ==>
        Inv(at) && Now() == after == AfterWrite(at, a, pe) && !Inv(Now())
    {
      ghost var s0, t0 := Now(), trace;
      var ok;
      ok, n := AgeAll(a, pe);
      ghost var t1 := trace;
      at, after := Now(), Now();
      assert Ages(a, pe[..n]) + [] == Ages(a, pe[..n]);
      if !ok { return ERROR, n, at, after; }
      assert pe[..n] == pe;
      HandlingReturnable(s0, at, a, pe);
      if CanReturn(Now(), a, pe) {
        status, after := WriteAll(a, pe, s0);
        DidBoth(t0, t1, trace, a, Ages(a, pe), [Write(a, pe)]);
        PassedEarlier(start, t0, t1, trace, trace, at, after);
      } else {
        status := WriteAmiss(a, pe);
        after := Now();
      }
    }

    /** et_station_nwrite for events that break the invariants. */
    method WriteAmiss(a: nat, pe: seq<nat>) returns (status: Status)
      requires Valid() && Own(Now(), a, pe) && !CanReturn(Now(), a, pe)
      modifies this, ev
      ensures if status == OK then Now() == AfterWrite(old(Now()), a, pe) && !Inv(Now())
              else Valid() && Now() == old(Now()) && trace == old(trace)
      ensures status == OK <==> HasRoom(old(Now()), old(att)[a].stat, pe)
      ensures status == OK ==> WroteTo(old(Now()), Now(), old(att)[a].stat, pe)
    {
      Wrote(Now(), a, pe);
      RoomIs(Now(), a, pe);
      if |pe| > ev.Length - |lists[Out(att[a].stat)]| { return ERROR; }
      WriteKeepsInvIff(Now(), a, pe);
      Put(a, pe);
      status := OK;
    }

    method WriteOnly(a: nat, pe: seq<nat>, ghost s0: State) returns (status: Status, ghost after: State)
      requires Valid() && CanReturn(Now(), a, pe) && CanReturn(s0, a, pe) && Handling(s0, Now(), a, pe)
      modifies this, ev
      ensures Valid() && Did(old(trace), trace, a, [Write(a, pe)]) && status == OK && Uncredited(s0, Now(), a, pe)
      ensures Passed(start, old(trace), trace, old(Now()), after) && WroteTo(old(Now()), after, old(att)[a].stat, pe)
    {
      ghost var s1, t1 := Now(), trace;
      var ok := StationNwrite(a, pe);
      if !ok { return ERROR, Now(); }
      after := Now();
      Others(a);
      Wrote(s1, a, pe);
      JustPassed(start, t1, t1, Write(a, pe), trace, s1, after);
      Written(s0, s1, a, pe);
      UncreditedStays(s0, after, Now(), a, pe);
      status := OK;
    }

    /** The last part of et_events_put. */
    method WriteAll(a: nat, pe: seq<nat>, ghost s0: State) returns (status: Status, ghost after: State)
      requires Valid() && CanReturn(Now(), a, pe) && CanReturn(s0, a, pe) && Handling(s0, Now(), a, pe)
      modifies this, ev
      ensures Valid() && Did(old(trace), trace, a, [Write(a, pe)]) && status == OK && PutDone(s0, Now(), a, pe)
      ensures Passed(start, old(trace), trace, old(Now()), after) && WroteTo(old(Now()), after, old(att)[a].stat, pe)
    {
      ghost var t0 := trace;
      status, after := WriteOnly(a, pe, s0);
      ghost var s1, t1, s := Now(), trace, old(Now());
      CountPut(a, |pe|);
      PassedEarlier(start, t0, t0, t1, trace, s, after);
      PutCredited(s0, s1, Now(), a, pe);
    }

    method FileRemoved(a: nat, e: nat)
      requires Valid() && a < |att| && Owns(Now(), a, e) && e in live
      modifies this`live, this`trace
      ensures Valid() && Did(old(trace), trace, a, [TempRemoved(a, e)]) && Now() == Apply(old(Now()), TempRemoved(a, e))
    {
      ghost var before := Now();
      live := live - {e};
      Log(before, TempRemoved(a, e), a);
    }

    /** The second loop of et_events_dump. Removing a temp file may fail, and does when
        the file is already gone. */
    method RemoveAll(a: nat, pe: seq<nat>) returns (ok: bool, temps: nat, n: nat)
      requires Valid() && Own(Now(), a, pe)
      modifies this, ev
      ensures Valid() && n <= |pe| && Did(old(trace), trace, a, Removals(old(Now()).ev, a, pe[..n]))
      ensures Handling(old(Now()), Now(), a, pe) && Removable(old(Now()), pe[..n])
      ensures ok ==> n == |pe| && RemovedUpTo(Now(), pe, |pe|, temps)
    {
      ghost var s0, t0 := Now(), trace;
      temps, n := 0, 0;
      while n < |pe|
        invariant n <= |pe| && Valid() && Did(t0, trace, a, Removals(s0.ev, a, pe[..n]))
        invariant Handling(s0, Now(), a, pe) && RemovedUpTo(Now(), pe, n, temps) && Past(s0, Now(), a, pe, n)
      {
        ok, temps := RemoveOne(a, pe, n, s0, t0, temps);
        if !ok { return; }
        n := n + 1;
      }
      ok := true;
    }

    method RemoveOne(a: nat, pe: seq<nat>, i: nat, ghost s0: State, ghost t0: seq<Step>, sofar: nat) returns (ok: bool, temps: nat)
      requires Valid() && Own(s0, a, pe) && Handling(s0, Now(), a, pe) && i < |pe| && RemovedUpTo(Now(), pe, i, sofar)
      requires Did(t0, trace, a, Removals(s0.ev, a, pe[..i])) && Past(s0, Now(), a, pe, i)
      modifies this, ev
      ensures Valid() && Handling(s0, Now(), a, pe) && Did(t0, trace, a, Removals(s0.ev, a, pe[..if ok then i + 1 else i]))
      ensures ok ==> RemovedUpTo(Now(), pe, i + 1, temps) && Past(s0, Now(), a, pe, i + 1)
    {
      HandlingOwns(s0, Now(), a, pe, i);
      ok, temps := Remove(a, pe, i, s0, t0, sofar);
      if ok {
        ghost var s1 := Now();
        Others(a);
        RemovedStays(s0, s1, Now(), a, pe, i + 1, temps);
        PastStays(s0, s1, Now(), a, pe, i + 1);
      }
    }

    method Remove(a: nat, pe: seq<nat>, i: nat, ghost s0: State, ghost t0: seq<Step>, sofar: nat) returns (removed: bool, temps: nat)
      requires Valid() && Own(s0, a, pe) && Handling(s0, Now(), a, pe) && i < |pe| && Owns(Now(), a, pe[i])
      requires RemovedUpTo(Now(), pe, i, sofar) && Past(s0, Now(), a, pe, i)
      requires Did(t0, trace, a, Removals(s0.ev, a, pe[..i]))
      modifies this`live, this`trace
      ensures Valid() && Handling(s0, Now(), a, pe) && Did(t0, trace, a, Removals(s0.ev, a, pe[..if removed then i + 1 else i]))
      ensures removed ==> RemovedUpTo(Now(), pe, i + 1, temps) && Past(s0, Now(), a, pe, i + 1)
    {
      temps := sofar;
      ghost var s1, t1 := Now(), trace;
      RemovalsMore(s0.ev, a, pe, i);
      if ev[pe[i]].temp {
        var works: bool := *;
        if !works || pe[i] !in live { return false, temps; }
        FileRemoved(a, pe[i]);
        OneGone(s0, s1, Now(), a, pe, i, sofar);
        DidBoth(t0, t1, trace, a, Removals(s0.ev, a, pe[..i]), [TempRemoved(a, pe[i])]);
        temps := temps + 1;
      } else {
        NoneGone(s0, s1, a, pe, i, sofar);
      }
      removed := true;
    }

    method Settled(a: nat, temps: nat)
      requires Valid() && a < |att| && temps <= settling[a]
      modifies this`ntemps, this`settling, this`trace
      ensures Valid() && Did(old(trace), trace, a, [Settle(a, temps)]) && Now() == Apply(old(Now()), Settle(a, temps))
    {
      ghost var before := Now();
      Uncount(a, temps);
      Log(before, Settle(a, temps), a);
    }

    method Uncount(a: nat, temps: nat)
      requires Shape(Now()) && Enabled(Now(), Settle(a, temps))
      modifies this`ntemps, this`settling
      ensures Now() == Apply(old(Now()), Settle(a, temps))
    {
      ntemps := ntemps - temps;
      settling := settling[a := settling[a] - temps];
    }

    method DumpOnly(a: nat, pe: seq<nat>, temps: nat, ghost s0: State) returns (status: Status, ghost after: State)
      requires Valid() && CanReturn(Now(), a, pe) && CanReturn(s0, a, pe) && Handling(s0, Now(), a, pe)
      requires RemovedUpTo(Now(), pe, |pe|, temps)
      modifies this, ev
      ensures Valid() && Did(old(trace), trace, a, [Dump(a, pe)]) && status == OK && Unsettled(s0, Now(), a, pe, temps)
      ensures Passed(start, old(trace), trace, old(Now()), after) && Recycled(old(Now()), after, pe)
    {
      ghost var s1, t1 := Now(), trace;
      NoFilesLeft(s1, pe, temps);
      assert pe[..|pe|] == pe;
      var ok := StationNdump(a, pe);
      if !ok { return ERROR, Now(); }
      after := Now();
      Others(a);
      JustPassed(start, t1, t1, Dump(a, pe), trace, s1, after);
      Dumped(s0, s1, a, pe, temps);
      UnsettledStays(s0, after, Now(), a, pe, temps);
      status := OK;
    }

    method SettleAll(a: nat, pe: seq<nat>, temps: nat, ghost s0: State)
      requires Valid() && Unsettled(s0, Now(), a, pe, temps)
      modifies this, ev
      ensures Valid() && Did(old(trace), trace, a, SettleOf(a, temps)) && Uncredited(s0, Now(), a, pe)
    {
      ghost var s1 := Now();
      if temps > 0 { Settled(a, temps); }
      SettledAll(s0, s1, Now(), a, pe, temps);
    }

    /** The last part of et_events_dump. */
    method DumpAll(a: nat, pe: seq<nat>, temps: nat, ghost s0: State) returns (status: Status, ghost after: State)
      requires Valid() && CanReturn(Now(), a, pe) && CanReturn(s0, a, pe) && Handling(s0, Now(), a, pe)
      requires RemovedUpTo(Now(), pe, |pe|, temps)
      modifies this, ev
      ensures Valid() && Did(old(trace), trace, a, [Dump(a, pe)] + SettleOf(a, temps))
      ensures status == OK && DumpDone(s0, Now(), a, pe)
      ensures Passed(start, old(trace), trace, old(Now()), after) && Recycled(old(Now()), after, pe)
    {
      ghost var at, t0 := Now(), trace;
      status, after := DumpOnly(a, pe, temps, s0);
      ghost var t1 := trace;
      SettleAll(a, pe, temps, s0);
      ghost var t2 := trace;
      Conclude(a, pe, s0);
      DidBoth(t0, t1, t2, a, [Dump(a, pe)], SettleOf(a, temps));
      PassedEarlier(start, t0, t0, t1, trace, at, after);
    }

    method Conclude(a: nat, pe: seq<nat>, ghost s0: State)
      requires Valid() && Uncredited(s0, Now(), a, pe)
      modifies this, ev
      ensures Valid() && Quiet(old(trace), trace, a) && DumpDone(s0, Now(), a, pe)
    {
      ghost var s1 := Now();
      CountDumped(a, |pe|);
      DumpCredited(s0, s1, Now(), a, pe);
    }

    /** et_station_ndump and the rest for events that break the invariants, as far as the move. */
    method DumpAmiss(a: nat, pe: seq<nat>) returns (status: Status)
      requires Valid() && Own(Now(), a, pe) && !CanReturn(Now(), a, pe)
      modifies this, ev
      ensures if status == OK then Now() == AfterDump(old(Now()), a, pe) && !Inv(Now())
              else Valid() && Now() == old(Now()) && trace == old(trace)
      ensures status == OK <==> |pe| + |old(lists)[0]| <= ev.Length
      ensures status == OK ==> Recycled(old(Now()), Now(), pe)
    {
      if |pe| > ev.Length - |lists[0]| { return ERROR; }
      MoveKeepsInvIff(Now(), a, pe);
      PutBack(a, pe);
      status := OK;
    }

    /** et_events_dump, once the events are known to be the caller's. */
    method RemoveAndDump(a: nat, pe: seq<nat>) returns (status: Status, ghost n: nat, ghost at: State, ghost after: State)
      requires Valid() && Own(Now(), a, pe)
      modifies this, ev
      ensures n <= |pe| && (status == OK ==> Removable(old(Now()), pe))
      ensures status != OK ==> Valid() && Did(old(trace), trace, a, Removals(old(Now()).ev, a, pe[..n]))
      ensures status != OK ==> Handling(old(Now()), Now(), a, pe)
      ensures status == OK && CanReturn(old(Now()), a, pe) ==>
        Valid() && Did(old(trace), trace, a, DumpActs(old(Now()).ev, a, pe)) && DumpDone(old(Now()), Now(), a, pe)
      ensures status == OK && CanReturn(old(Now()), a, pe) ==> Passed(start, old(trace), trace, at, after)
      ensures status == OK ==> Handling(old(Now()), at, a, pe) && Recycled(at, after, pe)
      ensures status == OK && !CanReturn(old(Now()), a, pe) ==>
        Inv(at) && Now() == after == AfterDump(at, a, pe) && !Inv(Now())
    {
      ghost var s0, t0 := Now(), trace;
      var ok, temps;
      ok, temps, n := RemoveAll(a, pe);
      ghost var t1 := trace;
      at, after := Now(), Now();
      if !ok { return ERROR, n, at, after; }
      assert pe[..n] == pe;
      HandlingReturnable(s0, at, a, pe);
      if CanReturn(Now(), a, pe) {
        TempsHandled(s0, at, a, pe, temps);
        status, after := DumpAll(a, pe, temps, s0);
        DidBoth(t0, t1, trace, a, Removals(s0.ev, a, pe), [Dump(a, pe)] + SettleOf(a, temps));
        PassedEarlier(start, t0, t1, trace, trace, at, after);
      } else {
        status := DumpAmiss(a, pe);
        after := Now();
      }
    }

    /** et_events_dump, for any events. It is refused if one is not the caller's, or is a temp
        event whose file is gone or will be by then. `at` is what its move has found, and `after`
        what it left. If that breaks the invariants, what others then do is not followed. */
    method EventsDump(a: nat, pe: seq<nat>) returns (status: Status, ghost n: nat, ghost at: State, ghost after: State)
      requires Valid() && a < |att| && forall i :: 0 <= i < |pe| ==> pe[i] < ev.Length
      modifies this, ev
      ensures n <= |pe| && (|pe| == 0 ==> status == OK && Valid() && Now() == old(Now()))
      ensures |pe| > 0 && !AllOwnedBy(old(Now()), pe, a) ==> status == ERROR && SameFor(old(Now()), Now(), a)
      ensures |pe| > 0 && status == OK ==> AllOwnedBy(old(Now()), pe, a) && Removable(old(Now()), pe)
      ensures status != OK ==> Valid() && Did(old(trace), trace, a, Removals(old(Now()).ev, a, pe[..n]))
      ensures status != OK ==> Handling(old(Now()), Now(), a, pe)
      ensures |pe| > 0 && status == OK && CanReturn(old(Now()), a, pe) ==>
        Valid() && Did(old(trace), trace, a, DumpActs(old(Now()).ev, a, pe)) && DumpDone(old(Now()), Now(), a, pe)
      ensures |pe| > 0 && status == OK && CanReturn(old(Now()), a, pe) ==> Passed(start, old(trace), trace, at, after)
      ensures |pe| > 0 && status == OK ==> Handling(old(Now()), at, a, pe) && Recycled(at, after, pe)
      ensures |pe| > 0 && status == OK && !CanReturn(old(Now()), a, pe) ==>
        Inv(at) && Now() == after == AfterDump(at, a, pe) && !Inv(Now())
    {
      n, at, after := 0, Now(), Now();
      if |pe| == 0 { return OK, n, at, after; }
      ghost var s0, t0 := Now(), trace;
      var ok := Check(a, pe, false);
      ghost var s1, t1 := Now(), trace;
      if !ok { return ERROR, n, at, after; }
      status, n, at, after := RemoveAndDump(a, pe);
      AfterCheck(s0, s1, Now(), at, a, pe);
      if status == OK && CanReturn(s0, a, pe) { PassedEarlier(start, t0, t1, trace, trace, at, after); }
      ActsSame(s0, s1, a, pe, n);
      if status != OK || CanReturn(s0, a, pe) {
        ThenDid(t0, t1, trace, a, if status == OK then DumpActs(s0.ev, a, pe) else Removals(s0.ev, a, pe[..n]));
      }
    }
  }

  function SettleOf(a: nat, temps: nat): seq<Step> { if temps > 0 then [Settle(a, temps)] else [] }

  /** What a dump does when all goes well: it removes the temp files, dumps all events in one
      go, and lowers ntemps by exactly those that were temp events. */
  function DumpActs(ev: seq<Event>, a: nat, pe: seq<nat>): seq<Step> {
    Removals(ev, a, pe) + ([Dump(a, pe)] + SettleOf(a, |TempsOf(ev, pe)|))
  }

  lemma RemovalsMore(ev: seq<Event>, a: nat, pe: seq<nat>, i: nat)
    requires i < |pe|
    ensures Removals(ev, a, pe[..i + 1]) ==
            Removals(ev, a, pe[..i]) + if pe[i] < |ev| && ev[pe[i]].temp then [TempRemoved(a, pe[i])] else []
  {
    assert pe[..i + 1][..i] == pe[..i];
  }

  lemma {:induction false} RemovalsAgree(ev: seq<Event>, ev': seq<Event>, a: nat, pe: seq<nat>)
    requires forall i :: 0 <= i < |pe| ==> pe[i] < |ev| && pe[i] < |ev'| && ev[pe[i]].temp == ev'[pe[i]].temp
    ensures Removals(ev, a, pe) == Removals(ev', a, pe) && TempsOf(ev, pe) == TempsOf(ev', pe)
  {
    if pe != [] { RemovalsAgree(ev, ev', a, pe[..|pe| - 1]); }
  }

  lemma ActsSame(s0: State, s1: State, a: nat, pe: seq<nat>, n: nat)
    requires a < |s0.att| && SameFor(s0, s1, a) && AllOwnedBy(s0, pe, a) && n <= |pe|
    ensures DumpActs(s0.ev, a, pe) == DumpActs(s1.ev, a, pe) && Removals(s0.ev, a, pe[..n]) == Removals(s1.ev, a, pe[..n])
  {
    RemovalsAgree(s0.ev, s1.ev, a, pe);
    RemovalsAgree(s0.ev, s1.ev, a, pe[..n]);
  }

  lemma TempsHandled(s0: State, s1: State, a: nat, pe: seq<nat>, temps: nat)
    requires Own(s0, a, pe) && Handling(s0, s1, a, pe) && RemovedUpTo(s1, pe, |pe|, temps)
    ensures temps == |TempsOf(s0.ev, pe)|
  {
    assert pe[..|pe|] == pe;
    RemovalsAgree(s0.ev, s1.ev, a, pe);
  }

  lemma NoFilesLeft(s: State, pe: seq<nat>, temps: nat)
    requires RemovedUpTo(s, pe, |pe|, temps)
    ensures TempsOf(s.ev, pe) !! s.live
  {
  }

  lemma TakenIs(s: State, t: State, a: nat, station: nat, k: nat, es: seq<nat>)
    requires Shape(s) && CanRead(s, a, station, k) && es == s.lists[In(station)][..k]
    requires t == s.(ev := Owners(s.ev, es, a), lists := s.lists[In(station) := s.lists[In(station)][k..]],
                     raw := if station == 0 then s.raw + Elements(es) else s.raw,
                     att := s.att[a := s.att[a].(reading := s.att[a].reading + k)])
    ensures t == AfterRead(s, a, station, k)
  {
  }

  lemma DumpIsStep(s: State, a: nat, pe: seq<nat>)
    requires Shape(s) && CanReturn(s, a, pe) && TempsOf(s.ev, pe) !! s.live
    ensures Enabled(s, Dump(a, pe)) && Apply(s, Dump(a, pe)) == AfterDump(s, a, pe) && Acts(Dump(a, pe), a)
  {
  }

  lemma WriteIsStep(s: State, a: nat, pe: seq<nat>)
    requires Shape(s) && CanReturn(s, a, pe)
    ensures Enabled(s, Write(a, pe)) && Apply(s, Write(a, pe)) == AfterWrite(s, a, pe) && Acts(Write(a, pe), a)
  {
  }

  lemma Unconfigured(s: State, step: Step)
    requires Shape(s) && Enabled(s, step)
    ensures Apply(s, step).eventSize == s.eventSize && Apply(s, step).maxTemps == s.maxTemps
  {
  }

  lemma SameFilesThrough(s: State, t: State, u: State, a: nat)
    requires a < |s.att| && SameFor(s, t, a) && SameFiles(s, t, a) && SameFiles(t, u, a)
    ensures SameFiles(s, u, a)
  {
  }

  lemma SameForThrough(s: State, t: State, u: State, a: nat)
    requires a < |s.att| && SameFor(s, t, a) && SameFor(t, u, a)
    ensures SameFor(s, u, a)
  {
  }

  /** From s to t, the attachment claimed a temp event. */
  ghost predicate Claimed(s: State, t: State, a: nat)
    requires a < |s.att|
  {
    && Kept(s, t, a, []) && t.att[a] == s.att[a] && OwnedBy(t.ev, a) == OwnedBy(s.ev, a)
    && t.reserved[a] == s.reserved[a] + 1 && t.settling[a] == s.settling[a]
  }

  lemma ClaimOne(s0: State, s1: State, s2: State, a: nat)
    requires a < |s0.att| && SameFor(s0, s1, a)
    requires Shape(s1) && Enabled(s1, Reserve(a)) && s2 == Apply(s1, Reserve(a))
    ensures Claimed(s0, s2, a)
  {
  }

  lemma MeetsClaim(s0: State, s1: State, s2: State, a: nat)
    requires a < |s0.att| && Claimed(s0, s1, a) && SameFor(s1, s2, a)
    ensures Claimed(s0, s2, a)
  {
  }

  lemma ClaimOwns(s0: State, s1: State, a: nat, e: nat)
    requires a < |s0.att| && Claimed(s0, s1, a) && e in s0.raw && Owns(s0, a, e)
    ensures s1.reserved[a] > 0 && e in s1.raw && Owns(s1, a, e)
  {
  }

  lemma ClaimLost(s0: State, s2: State, s3: State, a: nat, e: nat, gone: bool)
    requires a < |s0.att| && Claimed(s0, s2, a)
    requires Shape(s2) && Enabled(s2, TempNotMade(a, e, gone)) && s3 == Apply(s2, TempNotMade(a, e, gone))
    ensures SameFor(s0, s3, a)
  {
  }

  lemma ClaimUsed(s0: State, s2: State, s3: State, a: nat, e: nat, size: nat)
    requires a < |s0.att| && Claimed(s0, s2, a) && size > s0.eventSize
    requires Shape(s2) && Enabled(s2, TempMade(a, e, size)) && s3 == Apply(s2, TempMade(a, e, size))
    ensures MadeOne(s0, s3, a, e, size)
  {
    SameOwners(s2.ev, s3.ev);
  }

  lemma MadeAfterAll(s0: State, s1: State, s2: State, a: nat, e: nat, size: nat, status: Status)
    requires a < |s0.att| && SameFor(s0, s1, a)
    requires status == OK ==> MadeOne(s1, s2, a, e, size)
    requires status != OK ==> SameFor(s1, s2, a)
    ensures status == OK ==> MadeOne(s0, s2, a, e, size)
    ensures status != OK ==> SameFor(s0, s2, a)
  {
  }

  lemma MakingOne(s0: State, s1: State, s2: State, a: nat, pe: seq<nat>, i: nat, size: nat)
    requires Making(s0, s1, a, pe, i, size) && i < |pe| && MadeOne(s1, s2, a, pe[i], size)
    ensures Making(s0, s2, a, pe, i + 1, size)
  {
    forall j | 0 <= j < |pe| && j != i
      ensures s2.ev[pe[j]] == s1.ev[pe[j]] && (pe[j] in s2.raw <==> pe[j] in s1.raw)
    {
      assert pe[j] != pe[i];
    }
  }

  lemma MakingStays(s0: State, s1: State, s2: State, a: nat, pe: seq<nat>, i: nat, size: nat)
    requires Making(s0, s1, a, pe, i, size) && SameFor(s1, s2, a)
    ensures Making(s0, s2, a, pe, i, size)
  {
  }

  lemma NothingAcquired(s0: State, s1: State, a: nat)
    requires a < |s0.att| && SameFor(s0, s1, a)
    ensures Acquired(s0, s1, a, [])
  {
  }

  lemma ReadAcquires(s0: State, s1: State, a: nat, station: nat, k: nat, pe: seq<nat>)
    requires a < |s0.att| && SameFor(s0, s1, a) && Inv(s1) && CanRead(s1, a, station, k)
    requires pe == s1.lists[In(station)][..k]
    ensures Acquired(s0, AfterRead(s1, a, station, k), a, pe)
    ensures station == 0 ==> forall size :: MadeUpTo(AfterRead(s1, a, station, k), a, pe, 0, size)
  {
    var t := AfterRead(s1, a, station, k);
    assert ListHolds(s1, In(station), s1.lists[In(station)]);
    ReadKeepsMine(s1, a, station, k);
    ThenAcquired(s0, s1, t, a, pe);
  }

  lemma ReadAcquiresAll(s0: State, s1: State, a: nat, station: nat, k: nat, pe: seq<nat>, size: nat)
    requires a < |s0.att| && SameFor(s0, s1, a) && Inv(s1) && CanRead(s1, a, station, k)
    requires pe == s1.lists[In(station)][..k]
    ensures AcquiredAll(s0, AfterRead(s1, a, station, k), a, pe)
    ensures station == 0 ==> Making(s0, AfterRead(s1, a, station, k), a, pe, 0, size)
  {
    ReadAcquires(s0, s1, a, station, k, pe);
  }

  lemma NothingAcquiredAll(s0: State, s1: State, a: nat, size: nat)
    requires a < |s0.att| && SameFor(s0, s1, a)
    ensures AcquiredAll(s0, s1, a, []) && Making(s0, s1, a, [], 0, size)
  {
    NothingAcquired(s0, s1, a);
  }

  lemma ThenAcquired(s0: State, s1: State, t: State, a: nat, pe: seq<nat>)
    requires a < |s0.att| && SameFor(s0, s1, a) && Distinct(pe)
    requires OwnedBy(t.ev, a) == OwnedBy(s1.ev, a) + Elements(pe) && Kept(s1, t, a, []) && SamePending(s1, t, a)
    requires forall j :: 0 <= j < |pe| ==> pe[j] < |s1.ev| && s1.ev[pe[j]].owner == ET_SYS && t.ev[pe[j]].owner == a
    ensures Acquired(s0, t, a, pe)
  {
    forall j | 0 <= j < |pe| ensures s0.ev[pe[j]].owner != a { assert pe[j] !in OwnedBy(s1.ev, a); }
  }

  lemma ReadKeepsMine(s: State, a: nat, station: nat, k: nat)
    requires a < |s.att| && Shape(s) && CanRead(s, a, station, k)
    requires AllOwnedBy(s, s.lists[In(station)][..k], ET_SYS)
    ensures OwnedBy(AfterRead(s, a, station, k).ev, a) == OwnedBy(s.ev, a) + Elements(s.lists[In(station)][..k])
    ensures Kept(s, AfterRead(s, a, station, k), a, []) && SamePending(s, AfterRead(s, a, station, k), a)
  {
  }

  lemma MakeCredited(s0: State, s1: State, s2: State, a: nat, pe: seq<nat>, size: nat)
    requires Making(s0, s1, a, pe, |pe|, size) && Shape(s1) && s2 == Apply(s1, CreditMake(a, |pe|))
    ensures NewDone(s0, s2, a, pe, size, OK)
  {
  }

  lemma GetCredited(s0: State, s1: State, s2: State, a: nat, pe: seq<nat>)
    requires Acquired(s0, s1, a, pe) && s1.att[a] == s0.att[a].(reading := s0.att[a].reading + |pe|)
    requires Shape(s1) && s2 == Apply(s1, CreditGet(a, |pe|))
    ensures GetDone(s0, s2, a, pe, OK)
  {
  }

  lemma Abandoned(s0: State, s1: State, s2: State, a: nat, pe: seq<nat>, size: nat, status: Status)
    requires Acquired(s0, s1, a, pe) && s1.att[a] == s0.att[a].(reading := s0.att[a].reading + |pe|)
    requires Shape(s1) && s2 == Apply(s1, Abandon(a, |pe|)) && status != OK
    ensures NewDone(s0, s2, a, pe, size, status) && GetDone(s0, s2, a, pe, status)
  {
  }

  lemma CheckOne(s0: State, s1: State, a: nat, pe: seq<nat>, i: nat, lengths: bool)
    requires a < |s0.att| && SameFor(s0, s1, a) && i < |pe| && pe[i] < |s0.ev|
    requires CheckedUpTo(s0, a, pe, i, lengths)
    ensures CheckedUpTo(s0, a, pe, i + 1, lengths) <==>
            s1.ev[pe[i]].owner == a && (lengths ==> s1.ev[pe[i]].length <= s1.ev[pe[i]].memsize)
    ensures AllOwnedBy(s0, pe, a) && (lengths ==> Fits(s0, pe)) ==> CheckedUpTo(s0, a, pe, i + 1, lengths)
  {
    assert pe[i] in OwnedBy(s1.ev, a) <==> pe[i] in OwnedBy(s0.ev, a);
  }

  lemma HandlingOwns(s0: State, s1: State, a: nat, pe: seq<nat>, i: nat)
    requires Own(s0, a, pe) && Handling(s0, s1, a, pe) && i < |pe|
    ensures Owns(s1, a, pe[i])
  {
  }

  lemma HandledOne(s0: State, s1: State, s2: State, a: nat, pe: seq<nat>, i: nat)
    requires Own(s0, a, pe) && Handling(s0, s1, a, pe) && i < |pe| && Shape(s1) && Owns(s1, a, pe[i])
    requires s2 == Apply(s1, Age(a, pe[i], true))
    ensures Handling(s0, s2, a, pe) && (UsedUpTo(s1, pe, i) ==> UsedUpTo(s2, pe, i + 1))
  {
    SameOwners(s1.ev, s2.ev);
  }

  lemma HandlingStays(s0: State, s1: State, s2: State, a: nat, pe: seq<nat>, i: nat)
    requires Own(s0, a, pe) && Handling(s0, s1, a, pe) && SameFor(s1, s2, a) && UsedUpTo(s1, pe, i)
    ensures Handling(s0, s2, a, pe) && UsedUpTo(s2, pe, i)
  {
  }

  lemma AfterCheck(s0: State, s1: State, s2: State, at: State, a: nat, pe: seq<nat>)
    requires a < |s0.att| && SameFor(s0, s1, a) && SameFiles(s0, s1, a) && AllOwnedBy(s0, pe, a)
    ensures Own(s1, a, pe) && (CanReturn(s1, a, pe) <==> CanReturn(s0, a, pe)) && (Removable(s1, pe) <==> Removable(s0, pe))
    ensures Handling(s1, s2, a, pe) ==> Handling(s0, s2, a, pe)
    ensures Handling(s1, at, a, pe) ==> Handling(s0, at, a, pe)
    ensures PutDone(s1, s2, a, pe) ==> PutDone(s0, s2, a, pe)
    ensures DumpDone(s1, s2, a, pe) ==> DumpDone(s0, s2, a, pe)
  {
  }

  lemma HandlingReturnable(s0: State, s1: State, a: nat, pe: seq<nat>)
    requires Own(s0, a, pe) && Handling(s0, s1, a, pe)
    ensures Own(s1, a, pe) && (CanReturn(s1, a, pe) <==> CanReturn(s0, a, pe))
  {
  }

  lemma Written(s0: State, s1: State, a: nat, pe: seq<nat>)
    requires CanReturn(s0, a, pe) && Handling(s0, s1, a, pe) && AllOwnedBy(s1, pe, a) && Shape(s1)
    ensures Uncredited(s0, AfterWrite(s1, a, pe), a, pe)
  {
    assert OwnedBy(AfterWrite(s1, a, pe).ev, a) == OwnedBy(s1.ev, a) - Elements(pe);
  }

  lemma UncreditedStays(s0: State, s1: State, s2: State, a: nat, pe: seq<nat>)
    requires Uncredited(s0, s1, a, pe) && SameFor(s1, s2, a)
    ensures Uncredited(s0, s2, a, pe)
  {
  }

  lemma PutCredited(s0: State, s1: State, s2: State, a: nat, pe: seq<nat>)
    requires Uncredited(s0, s1, a, pe) && Shape(s1) && s2 == Apply(s1, CreditPut(a, |pe|))
    ensures PutDone(s0, s2, a, pe)
  {
  }

  lemma RemovedOne(s0: State, s1: State, s2: State, a: nat, pe: seq<nat>, i: nat, n: nat)
    requires Own(s0, a, pe) && Handling(s0, s1, a, pe) && i < |pe| && Shape(s1)
    requires Enabled(s1, TempRemoved(a, pe[i])) && s2 == Apply(s1, TempRemoved(a, pe[i]))
    requires RemovedUpTo(s1, pe, i, n) && s1.ev[pe[i]].temp
    ensures Handling(s0, s2, a, pe) && RemovedUpTo(s2, pe, i + 1, n + 1)
  {
    assert forall j :: 0 <= j < i ==> pe[j] != pe[i];
    TempsGrow(s1.ev, pe, i);
  }

  lemma NothingToRemove(s: State, a: nat, pe: seq<nat>, i: nat, n: nat)
    requires i < |pe| && pe[i] < |s.ev| && !s.ev[pe[i]].temp && RemovedUpTo(s, pe, i, n)
    ensures RemovedUpTo(s, pe, i + 1, n)
  {
    TempsGrow(s.ev, pe, i);
  }

  lemma TempsGrow(ev: seq<Event>, pe: seq<nat>, i: nat)
    requires i < |pe| && pe[i] < |ev| && (ev[pe[i]].temp ==> pe[i] !in pe[..i])
    ensures |TempsOf(ev, pe[..i + 1])| == |TempsOf(ev, pe[..i])| + if ev[pe[i]].temp then 1 else 0
  {
    assert pe[..i + 1] == pe[..i] + [pe[i]];
    assert TempsOf(ev, pe[..i + 1]) == TempsOf(ev, pe[..i]) + if ev[pe[i]].temp then {pe[i]} else {};
  }

  lemma RemovedStays(s0: State, s1: State, s2: State, a: nat, pe: seq<nat>, i: nat, n: nat)
    requires Own(s0, a, pe) && Handling(s0, s1, a, pe) && SameFor(s1, s2, a) && SameFiles(s1, s2, a) && RemovedUpTo(s1, pe, i, n)
    ensures Handling(s0, s2, a, pe) && RemovedUpTo(s2, pe, i, n)
  {
    assert forall j :: 0 <= j < |pe| ==> s2.ev[pe[j]] == s1.ev[pe[j]];
    assert TempsOf(s2.ev, pe[..i]) == TempsOf(s1.ev, pe[..i]);
  }

  lemma PastMore(s0: State, s1: State, s2: State, a: nat, pe: seq<nat>, i: nat, n: nat)
    requires Own(s0, a, pe) && Handling(s0, s1, a, pe) && i < |pe| && RemovedUpTo(s1, pe, i, n) && Past(s0, s1, a, pe, i)
    requires s1.ev[pe[i]].temp ==> pe[i] in s1.live
    requires s2.live <= s1.live
    ensures Past(s0, s2, a, pe, i + 1)
  {
    assert pe[..i + 1][..i] == pe[..i] && s1.ev[pe[i]].temp == s0.ev[pe[i]].temp;
    RemovableMore(s0, pe[..i + 1]);
    assert s0.ev[pe[i]].temp ==> forall j :: 0 <= j < i ==> pe[j] != pe[i];
  }

  lemma OneGone(s0: State, s1: State, s2: State, a: nat, pe: seq<nat>, i: nat, n: nat)
    requires Own(s0, a, pe) && Handling(s0, s1, a, pe) && i < |pe| && RemovedUpTo(s1, pe, i, n) && Past(s0, s1, a, pe, i)
    requires Shape(s1) && Enabled(s1, TempRemoved(a, pe[i])) && s1.ev[pe[i]].temp && s2 == Apply(s1, TempRemoved(a, pe[i]))
    ensures Handling(s0, s2, a, pe) && RemovedUpTo(s2, pe, i + 1, n + 1) && Past(s0, s2, a, pe, i + 1)
  {
    RemovedOne(s0, s1, s2, a, pe, i, n);
    PastMore(s0, s1, s2, a, pe, i, n);
  }

  lemma NoneGone(s0: State, s: State, a: nat, pe: seq<nat>, i: nat, n: nat)
    requires Own(s0, a, pe) && Handling(s0, s, a, pe) && i < |pe| && RemovedUpTo(s, pe, i, n) && Past(s0, s, a, pe, i)
    requires !s.ev[pe[i]].temp
    ensures RemovedUpTo(s, pe, i + 1, n) && Past(s0, s, a, pe, i + 1)
  {
    NothingToRemove(s, a, pe, i, n);
    PastMore(s0, s, s, a, pe, i, n);
  }

  lemma PastStays(s0: State, s1: State, s2: State, a: nat, pe: seq<nat>, i: nat)
    requires Handling(s0, s1, a, pe) && SameFiles(s1, s2, a) && Past(s0, s1, a, pe, i)
    ensures Past(s0, s2, a, pe, i)
  {
    forall e | 0 <= e < |s0.ev| && s0.ev[e].owner == a && e in s2.live ensures e in s0.live {
      assert e in OwnedBy(s1.ev, a);
    }
  }

  lemma Dumped(s0: State, s1: State, a: nat, pe: seq<nat>, temps: nat)
    requires CanReturn(s0, a, pe) && Handling(s0, s1, a, pe) && AllOwnedBy(s1, pe, a) && Shape(s1)
    requires temps == |TempsOf(s1.ev, pe)|
    ensures Unsettled(s0, AfterDump(s1, a, pe), a, pe, temps)
  {
    assert OwnedBy(AfterDump(s1, a, pe).ev, a) == OwnedBy(s1.ev, a) - Elements(pe);
  }

  lemma UnsettledStays(s0: State, s1: State, s2: State, a: nat, pe: seq<nat>, temps: nat)
    requires Unsettled(s0, s1, a, pe, temps) && SameFor(s1, s2, a)
    ensures Unsettled(s0, s2, a, pe, temps)
  {
  }

  lemma SettledAll(s0: State, s1: State, s2: State, a: nat, pe: seq<nat>, temps: nat)
    requires Unsettled(s0, s1, a, pe, temps) && Shape(s1)
    requires if temps > 0 then s2 == Apply(s1, Settle(a, temps)) else s2 == s1
    ensures Uncredited(s0, s2, a, pe)
  {
  }

  lemma DumpCredited(s0: State, s1: State, s2: State, a: nat, pe: seq<nat>)
    requires Uncredited(s0, s1, a, pe) && Shape(s1) && s2 == Apply(s1, CreditDump(a, |pe|))
    ensures DumpDone(s0, s2, a, pe)
  {
  }
}
