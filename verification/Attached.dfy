/** That the bridge sees of an ET system what the calls of EventCalls do: what they leave
    behind meets what Bridge.Port promises of its calls. */
module Attached {
  import opened EventLists
  import opened EventLife
  import EventCalls
  import Bridge

  /** The events an attachment owns, as the bridge sees them. EventLife does not model the
      data and control words of events; `rest` says what they are. */
  ghost function View(s: State, a: nat, rest: nat -> Bridge.Payload): map<nat, Bridge.Msg> {
    map e | e in OwnedBy(s.ev, a) :: Bridge.Msg(rest(e).(length := s.ev[e].length), s.ev[e].memsize, s.ev[e].temp)
  }

  /** Port.Valid. */
  lemma AlwaysValid(s: State, steps: seq<Step>, a: nat, rest: nat -> Bridge.Payload)
    requires Started(s) && Possible(s, steps)
    ensures forall e :: e in View(Run(s, steps), a, rest) ==>
              e < |s.ev| && View(Run(s, steps), a, rest)[e].memsize >= s.eventSize
  {
    RunKeepsSized(s, steps);
  }

  lemma AcquiredIsAdded(s: State, t: State, a: nat, pe: seq<nat>, rest: nat -> Bridge.Payload)
    requires EventCalls.Acquired(s, t, a, pe)
    ensures Bridge.Added(View(s, a, rest), View(t, a, rest), pe)
    ensures Bridge.Left(View(t, a, rest).Keys, View(s, a, rest).Keys, 0, |pe|)
  {
    var h0, h1 := View(s, a, rest), View(t, a, rest);
    assert h0.Keys == OwnedBy(s.ev, a) && h1.Keys == OwnedBy(t.ev, a);
    forall e | e in h0 ensures e in h1 && h1[e] == h0[e] { assert t.ev[e] == s.ev[e]; }
    Bridge.StraysLeft(h0, h1, pe);
  }

  /** Port.Get. A failure after the read needs a temp event among those read. */
  lemma GetMeetsPort(s: State, t: State, a: nat, pe: seq<nat>, status: EventCalls.Status, rest: nat -> Bridge.Payload)
    requires EventCalls.GetDone(s, t, a, pe, status)
    requires |pe| > 0 && status != EventCalls.OK ==> EventCalls.HasTemp(t.ev, pe)
    ensures status == EventCalls.OK ==> Bridge.Added(View(s, a, rest), View(t, a, rest), pe)
    ensures status != EventCalls.OK ==> Bridge.Left(View(t, a, rest).Keys, View(s, a, rest).Keys, 0, |pe|)
    ensures status != EventCalls.OK && |pe| > 0 ==> Bridge.TempBesides(View(t, a, rest), View(s, a, rest).Keys)
  {
    AcquiredIsAdded(s, t, a, pe, rest);
    if |pe| > 0 && status != EventCalls.OK {
      var i :| 0 <= i < |pe| && pe[i] < |t.ev| && t.ev[pe[i]].temp;
      assert pe[i] in View(t, a, rest) && pe[i] !in View(s, a, rest);
    }
  }

  /** Port.NewMany and Port.New: a new event has the size asked for. */
  lemma NewMeetsPort(s: State, t: State, a: nat, pe: seq<nat>, size: nat, status: EventCalls.Status, rest: nat -> Bridge.Payload)
    requires EventCalls.NewDone(s, t, a, pe, size, status)
    ensures status == EventCalls.OK ==> Bridge.Added(View(s, a, rest), View(t, a, rest), pe)
    ensures status == EventCalls.OK ==> forall i :: 0 <= i < |pe| ==>
      && pe[i] in View(t, a, rest) && View(t, a, rest)[pe[i]].load.length == size
      && View(t, a, rest)[pe[i]].memsize == (if size > s.eventSize then size else s.eventSize)
      && View(t, a, rest)[pe[i]].temp == (size > s.eventSize)
    ensures status != EventCalls.OK ==> Bridge.Left(View(t, a, rest).Keys, View(s, a, rest).Keys, 0, |pe|)
  {
    AcquiredIsAdded(s, t, a, pe, rest);
    if status == EventCalls.OK {
      forall i | 0 <= i < |pe| ensures pe[i] in View(t, a, rest) && t.ev[pe[i]] == EventCalls.NewEvent(t, a, size) { }
    }
  }

  /** Port.Put and Port.Dump: all events go, or none do. */
  lemma ReturnMeetsPort(s: State, t: State, a: nat, pe: seq<nat>, rest: nat -> Bridge.Payload)
    requires EventCalls.PutDone(s, t, a, pe) || EventCalls.DumpDone(s, t, a, pe)
    ensures View(t, a, rest) == View(s, a, rest) - Elements(pe)
  {
    var h0, h1 := View(s, a, rest), View(t, a, rest);
    assert h1.Keys == h0.Keys - Elements(pe);
    forall e | e in h1 ensures h1[e] == h0[e] { assert t.ev[e] == s.ev[e]; }
  }

  lemma RefusalMeetsPort(s: State, t: State, a: nat, pe: seq<nat>, rest: nat -> Bridge.Payload)
    requires EventCalls.Handling(s, t, a, pe) && AllOwnedBy(s, pe, a)
    ensures View(t, a, rest) == View(s, a, rest)
  {
    var h0, h1 := View(s, a, rest), View(t, a, rest);
    assert h1.Keys == h0.Keys;
    forall e | e in h1 ensures h1[e] == h0[e] {
      if e in pe {
        var j :| 0 <= j < |pe| && pe[j] == e;
        assert t.ev[pe[j]] == s.ev[pe[j]].(used := t.ev[pe[j]].used);
      } else {
        assert t.ev[e] == s.ev[e];
      }
    }
  }

  lemma ReturnedView(s: State, t: State, a: nat, pe: seq<nat>, rest: nat -> Bridge.Payload)
    requires AllOwnedBy(s, pe, a) && t.ev == Owners(s.ev, pe, ET_SYS)
    ensures View(t, a, rest) == View(s, a, rest) - Elements(pe)
  {
    OwnersMoved(s.ev, pe, a, ET_SYS);
    assert OwnedBy(t.ev, a) == OwnedBy(s.ev, a) - Elements(pe);
    assert View(t, a, rest).Keys == View(s, a, rest).Keys - Elements(pe);
  }

  /** And so it is even where a put or dump breaks the invariants. */
  lemma AmissMeetsPort(s: State, at: State, a: nat, pe: seq<nat>, rest: nat -> Bridge.Payload)
    requires EventCalls.Own(s, a, pe) && EventCalls.Handling(s, at, a, pe) && Shape(at)
    ensures View(AfterWrite(at, a, pe), a, rest) == View(s, a, rest) - Elements(pe)
    ensures View(AfterDump(at, a, pe), a, rest) == View(s, a, rest) - Elements(pe)
  {
    EventCalls.HandlingReturnable(s, at, a, pe);
    RefusalMeetsPort(s, at, a, pe, rest);
    MovedAlike(at, a, pe);
    ReturnedView(at, AfterWrite(at, a, pe), a, pe, rest);
    ReturnedView(at, AfterDump(at, a, pe), a, pe, rest);
  }

  lemma MovedAlike(s: State, a: nat, pe: seq<nat>)
    requires Shape(s) && a < |s.att|
    ensures AfterWrite(s, a, pe).ev == AfterDump(s, a, pe).ev == Owners(s.ev, pe, ET_SYS)
  {
  }

  /** New events that came without a failure may be given back: they are distinct and none is
      stale. Only those of a call that failed after its read may be stale. */
  lemma GivenIsReturnable(s: State, t: State, a: nat, pe: seq<nat>, size: nat)
    requires EventCalls.NewDone(s, t, a, pe, size, EventCalls.OK)
    ensures CanReturn(t, a, pe)
  {
  }

  // ----- an event that stays -----

  /** A system of two events, of which the first of an attachment's is of ordinary size. */
  const BLANK := Event(ET_SYS, false, false, false, 0, 10)
  const FIRST := Event(0, false, false, false, 10, 10)

  function Pair(ev: seq<Event>, listed: seq<nat>, a: Attachment, ntemps: int, raw: set<nat>, reserved: multiset<nat>, leaked: nat): State {
    State(10, 5, ev, [listed, [], []], [a], ntemps, [0, 0], raw, {}, {}, {}, reserved, multiset{}, leaked)
  }

  const PAIR := Pair([BLANK, BLANK], [0, 1], Attachment(0, 0, 0, 0, 0, 0, 0, 0), 0, {}, multiset{}, 0)

  const ONE := Pair([FIRST, BLANK], [1], Attachment(0, 1, 0, 0, 0, 0, 0, 0), 0, {}, multiset{}, 0)
  const TWO := Pair([FIRST, BLANK.(owner := 0)], [], Attachment(0, 1, 0, 0, 0, 0, 0, 1), 1, {1}, multiset{}, 1)
  const KEPT := Pair([FIRST, BLANK], [1], Attachment(0, 1, 0, 0, 1, 0, 0, 1), 1, {}, multiset{}, 1)

  lemma PairReads(ev: seq<Event>, e: nat, others: seq<nat>, c: Attachment, ntemps: int, leaked: nat)
    requires |ev| == 2 && e < 2 && c.stat == 0
    ensures var s := Pair(ev, [e] + others, c, ntemps, {}, multiset{}, leaked);
      Shape(s) && Enabled(s, Read(0, 0, 1)) &&
      Apply(s, Read(0, 0, 1)) ==
        Pair(ev[e := ev[e].(owner := 0)], others, c.(reading := c.reading + 1), ntemps, {e}, multiset{}, leaked)
  {
    var s := Pair(ev, [e] + others, c, ntemps, {}, multiset{}, leaked);
    assert ([e] + others)[..1] == [e] && ([e] + others)[1..] == others && Elements([e]) == {e};
    var t := AfterRead(s, 0, 0, 1);
    assert t.ev == ev[e := ev[e].(owner := 0)];
    assert t.lists == [others, [], []] && t.att == [c.(reading := c.reading + 1)] && t.raw == {e};
  }

  lemma PairCounts(s: State, step: Step, c: Attachment)
    requires Shape(s) && |s.att| == 1 && Enabled(s, step) && c.stat == s.att[0].stat && (step.CreditMake? || step.Abandon? || step.CreditDump?)
    requires AfterQuiet(s, step) == Counting(s, 0, c)
    ensures Apply(s, step) == s.(att := [c])
  {
    assert s.att[0 := c] == [c];
  }

  const AFTER_READ := Pair([BLANK.(owner := 0), BLANK], [1], Attachment(0, 0, 0, 0, 0, 1, 0, 0), 0, {0}, multiset{}, 0)
  const AFTER_INIT := Pair([FIRST, BLANK], [1], Attachment(0, 0, 0, 0, 0, 1, 0, 0), 0, {}, multiset{}, 0)

  /** A step that is possible, and where it leads; and a run. They are unfolded only where
      they are named. */
  ghost predicate Leads(s: State, step: Step, t: State) {
    forall x {:trigger Named([x])} :: Named([x]) && x == step ==> Shape(s) && Enabled(s, x) && Apply(s, x) == t
  }

  ghost predicate Reaches(s: State, steps: seq<Step>, t: State) {
    forall x {:trigger Named(x)} :: Named(x) && x == steps ==> Shape(s) && Possible(s, x) && Run(s, x) == t
  }

  predicate Named(steps: seq<Step>) { true }

  lemma LeadsOn(s: State, steps: seq<Step>, t: State, step: Step, u: State) returns (more: seq<Step>)
    requires Reaches(s, steps, t) && Leads(t, step, u)
    ensures Reaches(s, more, u) && more == steps + [step]
  {
    assert Named([step]) && Named(steps);
    more := steps + [step];
    Then(s, steps, t, step, u);
  }

  lemma ReachesIs(s: State, steps: seq<Step>, t: State)
    requires Reaches(s, steps, t)
    ensures Shape(s) && Possible(s, steps) && Run(s, steps) == t
  {
    assert Named(steps);
  }

  lemma FirstIsRead()
    ensures Started(PAIR) && Leads(PAIR, Read(0, 0, 1), AFTER_READ)
  {
    assert PAIR.lists[0] == seq(2, i => i) && [0, 1] == [0] + [1];
    PairReads([BLANK, BLANK], 0, [1], Attachment(0, 0, 0, 0, 0, 0, 0, 0), 0, 0);
    assert [BLANK, BLANK][0 := BLANK.(owner := 0)] == [BLANK.(owner := 0), BLANK];
  }

  lemma FirstIsInitialised()
    ensures Leads(AFTER_READ, Normal(0, 0, 10), AFTER_INIT)
  {
    var t := Apply(AFTER_READ, Normal(0, 0, 10));
    assert t.ev == [FIRST, BLANK] && t.raw == {};
  }

  lemma FirstIsCredited()
    ensures Leads(AFTER_INIT, CreditMake(0, 1), ONE)
  {
    PairCounts(AFTER_INIT, CreditMake(0, 1), Attachment(0, 1, 0, 0, 0, 0, 0, 0));
  }

  const MINE := [FIRST, BLANK.(owner := 0)]
  const READ_TWO := Pair(MINE, [], Attachment(0, 1, 0, 0, 0, 1, 0, 0), 0, {1}, multiset{}, 0)
  const RESERVED := Pair(MINE, [], Attachment(0, 1, 0, 0, 0, 1, 0, 0), 1, {1}, multiset{0}, 0)
  const NOT_MADE := Pair(MINE, [], Attachment(0, 1, 0, 0, 0, 1, 0, 0), 1, {1}, multiset{}, 1)

  lemma SecondIsRead()
    ensures Leads(ONE, Read(0, 0, 1), READ_TWO)
  {
    assert [1] == [1] + [];
    PairReads([FIRST, BLANK], 1, [], Attachment(0, 1, 0, 0, 0, 0, 0, 0), 0, 0);
    assert [FIRST, BLANK][1 := BLANK.(owner := 0)] == MINE;
  }

  lemma FileFails()
    ensures Leads(READ_TWO, Reserve(0), RESERVED) && Leads(RESERVED, TempNotMade(0, 1, false), NOT_MADE)
  {
    assert multiset{}[0 := 1] == multiset{0} && multiset{0}[0 := 0] == multiset{};
  }

  lemma SecondIsAbandoned()
    ensures Leads(NOT_MADE, Abandon(0, 1), TWO)
  {
    PairCounts(NOT_MADE, Abandon(0, 1), Attachment(0, 1, 0, 0, 0, 0, 0, 1));
  }

  const DUMPED := Pair([FIRST, BLANK], [1], Attachment(0, 1, 0, 0, 0, 0, 1, 1), 1, {}, multiset{}, 1)

  lemma SecondGoesBack()
    ensures Leads(TWO, Dump(0, [1]), DUMPED)
  {
    assert Elements([1]) == {1} && {1} - {1} == {} && TempsOf(TWO.ev, [1]) == {} && multiset{}[0 := 0] == multiset{};
    assert AllOwnedBy(TWO, [1], 0) && Distinct([1]) && NoStaleTemps(TWO, [1]);
    assert TWO.lists[0] + [1] == [1];
    var t := AfterDump(TWO, 0, [1]);
    assert t.ev == [FIRST, BLANK] && t.home == [0, 0] && t.lists == [[1], [], []];
    assert t.att == [Attachment(0, 1, 0, 0, 0, 0, 1, 1)] && t.raw == {} && t.charged == {};
  }

  lemma DumpIsCredited()
    ensures Leads(DUMPED, CreditDump(0, 1), KEPT)
  {
    PairCounts(DUMPED, CreditDump(0, 1), Attachment(0, 1, 0, 0, 1, 0, 0, 1));
  }

  /** The attachment gets a new event of ordinary size. */
  lemma FirstIsMade() returns (steps: seq<Step>)
    ensures Started(PAIR) && Reaches(PAIR, steps, ONE)
    ensures steps == [] + [Read(0, 0, 1)] + [Normal(0, 0, 10)] + [CreditMake(0, 1)]
  {
    FirstIsRead();
    FirstIsInitialised();
    FirstIsCredited();
    steps := LeadsOn(PAIR, [], PAIR, Read(0, 0, 1), AFTER_READ);
    steps := LeadsOn(PAIR, steps, AFTER_READ, Normal(0, 0, 10), AFTER_INIT);
    steps := LeadsOn(PAIR, steps, AFTER_INIT, CreditMake(0, 1), ONE);
  }

  /** Then it asks for a larger one, whose file cannot be made. */
  lemma SecondFails(made: seq<Step>) returns (steps: seq<Step>)
    requires Reaches(PAIR, made, ONE)
    ensures Reaches(PAIR, steps, TWO)
    ensures steps == made + [Read(0, 0, 1)] + [Reserve(0)] + [TempNotMade(0, 1, false)] + [Abandon(0, 1)]
  {
    SecondIsRead();
    FileFails();
    SecondIsAbandoned();
    steps := LeadsOn(PAIR, made, ONE, Read(0, 0, 1), READ_TWO);
    steps := LeadsOn(PAIR, steps, READ_TWO, Reserve(0), RESERVED);
    steps := LeadsOn(PAIR, steps, RESERVED, TempNotMade(0, 1, false), NOT_MADE);
    steps := LeadsOn(PAIR, steps, NOT_MADE, Abandon(0, 1), TWO);
  }

  /** And dumps what its array names, which is the second. */
  lemma SecondIsDumped(failed: seq<Step>) returns (steps: seq<Step>)
    requires Reaches(PAIR, failed, TWO)
    ensures Reaches(PAIR, steps, KEPT) && steps == failed + [Dump(0, [1])] + [CreditDump(0, 1)]
  {
    SecondGoesBack();
    DumpIsCredited();
    steps := LeadsOn(PAIR, failed, TWO, Dump(0, [1]), DUMPED);
    steps := LeadsOn(PAIR, steps, DUMPED, CreditDump(0, 1), KEPT);
  }

  /** The bridge keeps an event in the "to" system: event 0 is too small for what it got; the
      larger event it asks for fails after its read; the array it gives back from names event
      1 where event 0 was. At the end it owns event 0, and its counters say it owns none. */
  lemma OneIsKept(rest: nat -> Bridge.Payload) returns (made: seq<Step>, failed: seq<Step>, left: seq<Step>)
    ensures Started(PAIR) && Possible(PAIR, made) && Run(PAIR, made) == ONE
    ensures Possible(PAIR, failed) && Run(PAIR, failed) == TWO
    ensures Possible(PAIR, left) && Run(PAIR, left) == KEPT
    ensures made == [] + [Read(0, 0, 1)] + [Normal(0, 0, 10)] + [CreditMake(0, 1)]
    ensures failed == made + [Read(0, 0, 1)] + [Reserve(0)] + [TempNotMade(0, 1, false)] + [Abandon(0, 1)]
    ensures left == failed + [Dump(0, [1])] + [CreditDump(0, 1)]
    ensures Bridge.Replaced(View(ONE, 0, rest), View(TWO, 0, rest), {}, [0], [0][0 := 1], [], 0, false, 1, {0})
    ensures View(KEPT, 0, rest).Keys == View(TWO, 0, rest).Keys - Elements([0][0 := 1])
    ensures OwnedBy(KEPT.ev, 0) == {0} && Bridge.Left(View(KEPT, 0, rest).Keys, {}, 0, 1)
    ensures KEPT.att[0].make + KEPT.att[0].get == KEPT.att[0].put + KEPT.att[0].dump
  {
    made := FirstIsMade();
    failed := SecondFails(made);
    left := SecondIsDumped(failed);
    ReachesIs(PAIR, made, ONE);
    ReachesIs(PAIR, failed, TWO);
    ReachesIs(PAIR, left, KEPT);
    PairViews(rest);
    KeptFor(View(ONE, 0, rest), View(TWO, 0, rest));
  }

  lemma PairViews(rest: nat -> Bridge.Payload)
    ensures OwnedBy(KEPT.ev, 0) == {0} && View(KEPT, 0, rest).Keys == {0}
    ensures View(ONE, 0, rest).Keys == {0} && View(TWO, 0, rest).Keys == {0, 1} && View(TWO, 0, rest)[0] == View(ONE, 0, rest)[0]
  {
    assert OwnedBy(ONE.ev, 0) == {0} && OwnedBy(TWO.ev, 0) == {0, 1};
  }

  lemma OneElement(e: nat)
    ensures Elements([e]) == {e} && Distinct([e])
  {
  }

  lemma KeptFor(h0: map<nat, Bridge.Msg>, h1: map<nat, Bridge.Msg>)
    requires h0.Keys == {0} && h1.Keys == {0, 1} && h1[0] == h0[0]
    ensures Bridge.Replaced(h0, h1, {}, [0], [0][0 := 1], [], 0, false, 1, {0})
    ensures h1.Keys - Elements([0][0 := 1]) == {0} && Bridge.Left({0}, {}, 0, 1)
  {
    assert [0] + [] == [0] && [0][0 := 1] == [1];
    OneElement(0);
    OneElement(1);
    assert h1.Keys == h0.Keys + Elements([1]);
    Bridge.ReplacedBy(h0, h1, {}, [0], [], 0, 1);
  }
}
