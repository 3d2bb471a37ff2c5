/** The ring of event arrays that the blaster's two threads share.

    Every slot of the ring has one mutex, one condition variable used in both
    directions and one hasData flag. The new-events thread (the producer) and
    the main loop (the consumer) each own a cursor. A step of the machine is one
    atomic action of one thread: a lock, a test, a store, an unlock, a signal, a
    cursor advance. Unlock, signal and advance are separate steps, and numRead
    is read after the unlock, exactly where the program reads it. */
module BlasterRing {
  import opened Options

  /** The events of one array, in the order they lie in it. */
  type Batch = seq<int>

  datatype Holder = Free | Producer | Consumer

  /** Where the producer is: getEmptyArray, filling, putDataArrayInQ. */
  datatype ProducerAt =
    | PLock      // about to lock the slot's mutex
    | PTest      // mutex held: test hasData
    | PWait      // blocked in pthread_cond_wait
    | PRelock    // woken, needs the mutex back
    | PGot       // mutex held: slot seen empty
    | PFill      // no mutex: et_events_new_group writes into the array
    | PLock2
    | PSet       // mutex held: about to set hasData
    | PSetNum    // mutex held: about to set numRead
    | PUnlock
    | PSignal    // no mutex: about to signal
    | PAdvance   // about to move the cursor

  /** Where the consumer is: getDataArrayFromQ, using, doneWithDataArray. */
  datatype ConsumerAt =
    | CLock
    | CTest
    | CWait
    | CRelock
    | CGot       // mutex held: slot seen full
    | CReadNum   // no mutex: about to read numRead
    | CUse       // no mutex: the array is put into the ET system
    | CLock2
    | CClear     // mutex held: about to clear hasData
    | CUnlock
    | CSignal
    | CAdvance

  datatype State = State(
    hasData: seq<bool>,
    numRead: seq<int>,
    arrays: seq<seq<int>>,      // pEvents of every slot
    mutex: seq<Holder>,
    pw: nat, pr: nat,           // pWriteBuf and pReadBuf, as slot indices
    p: ProducerAt, c: ConsumerAt,
    newNum: int,                 // the producer's local numRead
    got: int,                   // the consumer's local numRead
    produced: seq<Batch>,       // history: arrays handed over by the producer
    consumed: seq<Batch>,       // history: arrays used by the consumer
    cleared: nat)               // history: slots given back by the consumer

  datatype Action =
    | ProducerRuns
    | ConsumerRuns
    | Writes(events: seq<int>)  // a part of the fill, seen by everybody
    | Filled(count: nat)        // et_events_new_group returns
    | ProducerSpurious          // pthread_cond_wait returns without a signal
    | ConsumerSpurious

  /** circBuf.next */
  function Next(i: nat, n: nat): nat
    requires i < n
  {
    if i == n - 1 then 0 else i + 1
  }

  /** How many moves after slot r a cursor reaches slot i. */
  function Age(i: nat, r: nat, n: nat): nat
    requires i < n && r < n
  {
    if i >= r then i - r else i + n - r
  }

  ghost predicate Shape(s: State) {
    var n := |s.hasData|;
    && n > 0
    && |s.numRead| == |s.arrays| == |s.mutex| == n
    && s.pw < n && s.pr < n
  }

  function Init(n: nat, arrays: seq<seq<int>>): (s: State)
    requires n > 0 && |arrays| == n
  {
    State(seq(n, _ => false), seq(n, _ => 0), arrays, seq(n, _ => Free),
          0, 0, PLock, CLock, 0, 0, [], [], 0)
  }

  ghost predicate Enabled(s: State, a: Action)
    requires Shape(s)
  {
    match a
    case ProducerRuns =>
      if (s.p.PLock? || s.p.PRelock? || s.p.PLock2?) then s.mutex[s.pw] == Free else s.p != PWait && s.p != PFill
    case ConsumerRuns =>
      if (s.c.CLock? || s.c.CRelock? || s.c.CLock2?) then s.mutex[s.pr] == Free else s.c != CWait
    case Writes(events) => s.p == PFill
    case Filled(count) => s.p == PFill && count <= |s.arrays[s.pw]|
    case ProducerSpurious => s.p == PWait
    case ConsumerSpurious => s.c == CWait
  }

  ghost function ProducerStep(s: State): State
    requires Shape(s) && Enabled(s, ProducerRuns)
  {
    var n := |s.hasData|;
    match s.p
    case PLock => s.(mutex := s.mutex[s.pw := Producer], p := PTest)
    case PTest =>
      if s.hasData[s.pw] then s.(mutex := s.mutex[s.pw := Free], p := PWait) else s.(p := PGot)
    case PRelock => s.(mutex := s.mutex[s.pw := Producer], p := PTest)
    case PGot => s.(mutex := s.mutex[s.pw := Free], p := PFill)
    case PLock2 => s.(mutex := s.mutex[s.pw := Producer], p := PSet)
    case PSet =>
      var batch := if 0 <= s.newNum <= |s.arrays[s.pw]| then s.arrays[s.pw][..s.newNum] else [];
      s.(hasData := s.hasData[s.pw := true], p := PSetNum, produced := s.produced + [batch])
    case PSetNum => s.(numRead := s.numRead[s.pw := s.newNum], p := PUnlock)
    case PUnlock => s.(mutex := s.mutex[s.pw := Free], p := PSignal)
    case PSignal => s.(p := PAdvance, c := if s.c == CWait && s.pr == s.pw then CRelock else s.c)
    case PAdvance => s.(pw := Next(s.pw, n), p := PLock)
    case PWait => s
    case PFill => s
  }

  ghost function ConsumerStep(s: State): State
    requires Shape(s) && Enabled(s, ConsumerRuns)
  {
    var n := |s.hasData|;
    match s.c
    case CLock => s.(mutex := s.mutex[s.pr := Consumer], c := CTest)
    case CTest =>
      if s.hasData[s.pr] then s.(c := CGot) else s.(mutex := s.mutex[s.pr := Free], c := CWait)
    case CRelock => s.(mutex := s.mutex[s.pr := Consumer], c := CTest)
    case CGot => s.(mutex := s.mutex[s.pr := Free], c := CReadNum)
    case CReadNum => s.(got := s.numRead[s.pr], c := CUse)
    case CUse =>
      var batch := if 0 <= s.got <= |s.arrays[s.pr]| then s.arrays[s.pr][..s.got] else [];
      s.(consumed := s.consumed + [batch], c := CLock2)
    case CLock2 => s.(mutex := s.mutex[s.pr := Consumer], c := CClear)
    case CClear => s.(hasData := s.hasData[s.pr := false], cleared := s.cleared + 1, c := CUnlock)
    case CUnlock => s.(mutex := s.mutex[s.pr := Free], c := CSignal)
    case CSignal => s.(c := CAdvance, p := if s.p == PWait && s.pw == s.pr then PRelock else s.p)
    case CAdvance => s.(pr := Next(s.pr, n), c := CLock)
    case CWait => s
  }

  ghost function Apply(s: State, a: Action): State
    requires Shape(s) && Enabled(s, a)
  {
    match a
    case ProducerRuns => ProducerStep(s)
    case ConsumerRuns => ConsumerStep(s)
    case Writes(events) => s.(arrays := s.arrays[s.pw := events])
    case Filled(count) => s.(newNum := count, p := PLock2)
    case ProducerSpurious => s.(p := PRelock)
    case ConsumerSpurious => s.(c := CRelock)
  }

  // ----- the inductive invariant -----

  predicate ProducerLocked(p: ProducerAt) { (p.PTest? || p.PGot? || p.PSet? || p.PSetNum? || p.PUnlock?) }
  predicate ConsumerLocked(c: ConsumerAt) { (c.CTest? || c.CGot? || c.CClear? || c.CUnlock?) }

  /** The producer may write into the slot's array, or has just filled it. */
  predicate ProducerHolds(p: ProducerAt) { (p.PGot? || p.PFill? || p.PLock2? || p.PSet?) }

  /** The consumer may read the slot's array or its numRead. */
  predicate ConsumerHolds(c: ConsumerAt) { (c.CGot? || c.CReadNum? || c.CUse? || c.CLock2? || c.CClear?) }

  /** The slot is handed over but the cursor has not moved. */
  predicate ProducerDone(p: ProducerAt) { (p.PSetNum? || p.PUnlock? || p.PSignal? || p.PAdvance?) }
  predicate ConsumerDone(c: ConsumerAt) { (c.CUnlock? || c.CSignal? || c.CAdvance?) }

  ghost predicate HeldBy(s: State, i: nat, holder: Holder) {
    && (holder == Producer <==> i == s.pw && ProducerLocked(s.p))
    && (holder == Consumer <==> i == s.pr && ConsumerLocked(s.c))
  }

  ghost predicate Locks(s: State)
    requires Shape(s)
  {
    forall i :: 0 <= i < |s.mutex| ==> HeldBy(s, i, s.mutex[i])
  }

  /** The slot of the oldest array not given back, and the slot of the next array. */
  function Oldest(s: State): nat
    requires Shape(s)
  {
    if ConsumerDone(s.c) then Next(s.pr, |s.hasData|) else s.pr
  }

  function Newest(s: State): nat
    requires Shape(s)
  {
    if ProducerDone(s.p) then Next(s.pw, |s.hasData|) else s.pw
  }

  ghost predicate Cursors(s: State)
    requires Shape(s)
  {
    var n, held := |s.hasData|, |s.produced| - s.cleared;
    && 0 <= held <= n
    && (if held == n then Newest(s) == Oldest(s) else held == Age(Newest(s), Oldest(s), n))
    && (ProducerDone(s.p) ==> s.produced != [])
  }

  /** What one slot holds, given the arrays not yet given back and the slot's age. */
  ghost predicate SlotHolds(hasData: bool, numRead: int, events: seq<int>, held: seq<Batch>, age: nat, halfSet: bool) {
    && (hasData <==> age < |held|)
    && (age < |held| ==>
          && |held[age]| <= |events|
          && held[age] == events[..|held[age]|]
          && ((halfSet && age == |held| - 1) || numRead == |held[age]|))
  }

  /** The arrays not given back lie in the ring in order, from the oldest slot on:
      exactly their slots have data, and each slot still holds its array. */
  ghost predicate Window(s: State)
    requires Shape(s) && Cursors(s)
  {
    var n, held := |s.hasData|, s.produced[s.cleared..];
    forall i :: 0 <= i < n ==>
      SlotHolds(s.hasData[i], s.numRead[i], s.arrays[i], held, Age(i, Oldest(s), n), s.p == PSetNum)
  }

  ghost predicate Phases(s: State)
    requires Shape(s)
  {
    && (ProducerHolds(s.p) ==> !s.hasData[s.pw])
    && ((s.p.PLock2? || s.p.PSet?) ==> 0 <= s.newNum <= |s.arrays[s.pw]|)
    && (s.p == PSetNum ==> s.produced != [] && s.newNum == |s.produced[|s.produced| - 1]|)
    && (ConsumerHolds(s.c) ==> s.hasData[s.pr])
    && ((s.p.PSetNum? || s.p.PUnlock?) && s.pw == s.pr ==> !ConsumerHolds(s.c))
    && (s.c == CUse ==> s.got == s.numRead[s.pr])
  }

  ghost predicate Logs(s: State) {
    && |s.consumed| == s.cleared + (if (s.c.CLock2? || s.c.CClear?) then 1 else 0)
    && s.consumed <= s.produced
  }

  /** A thread that waits although its condition holds has a signal on its way. */
  ghost predicate Wakeups(s: State)
    requires Shape(s)
  {
    && (s.p == PWait && !s.hasData[s.pw] ==> s.pr == s.pw && (s.c.CUnlock? || s.c.CSignal?))
    && (s.c == CWait && s.hasData[s.pr] ==> s.pw == s.pr && (s.p.PSetNum? || s.p.PUnlock? || s.p.PSignal?))
  }

  ghost predicate Inv(s: State) {
    Shape(s) && Locks(s) && Cursors(s) && Window(s) && Phases(s) && Logs(s) && Wakeups(s)
  }

  // ----- every step keeps the invariant -----

  lemma InitInv(n: nat, arrays: seq<seq<int>>)
    requires n > 0 && |arrays| == n
    ensures Inv(Init(n, arrays))
  {
  }

  lemma ProducerKeepsLocks(s: State)
    requires Shape(s) && Locks(s) && Enabled(s, ProducerRuns)
    ensures Shape(ProducerStep(s)) && Locks(ProducerStep(s))
  {
    var t := ProducerStep(s);
    forall i | 0 <= i < |t.mutex| ensures HeldBy(t, i, t.mutex[i]) {
      assert HeldBy(s, i, s.mutex[i]) && HeldBy(s, s.pw, s.mutex[s.pw]) && HeldBy(s, s.pr, s.mutex[s.pr]);
    }
  }

  /** The empty slot at the producer's cursor means that the ring has room. */
  lemma SetHasRoom(s: State)
    requires Shape(s) && Cursors(s) && Window(s) && s.p == PSet && !s.hasData[s.pw]
    ensures |s.produced| - s.cleared < |s.hasData|
  {
    assert SlotHolds(s.hasData[s.pw], s.numRead[s.pw], s.arrays[s.pw], s.produced[s.cleared..],
                     Age(s.pw, Oldest(s), |s.hasData|), false);
  }

  lemma ProducerKeepsCursors(s: State)
    requires Shape(s) && Cursors(s) && Enabled(s, ProducerRuns)
    requires s.p == PSet ==> |s.produced| - s.cleared < |s.hasData|
    ensures Cursors(ProducerStep(s)) && Oldest(ProducerStep(s)) == Oldest(s)
  {
  }

  /** The window speaks only of these parts of the state. */
  lemma SameWindow(s: State, t: State)
    requires Shape(s) && Cursors(s) && Window(s) && Shape(t) && Cursors(t)
    requires s.hasData == t.hasData && s.numRead == t.numRead && s.arrays == t.arrays
    requires s.produced == t.produced && s.cleared == t.cleared
    requires Oldest(s) == Oldest(t) && (s.p == PSetNum) == (t.p == PSetNum)
    ensures Window(t)
  {
    var n, held := |s.hasData|, s.produced[s.cleared..];
    forall i | 0 <= i < n
      ensures SlotHolds(t.hasData[i], t.numRead[i], t.arrays[i], held, Age(i, Oldest(t), n), t.p == PSetNum)
    {
      assert SlotHolds(s.hasData[i], s.numRead[i], s.arrays[i], held, Age(i, Oldest(s), n), s.p == PSetNum);
    }
  }

  /** Storing hasData appends one array to the window. */
  lemma SetKeepsSlot(s: State, t: State, i: nat)
    requires Shape(s) && Cursors(s) && Window(s) && s.p == PSet && i < |s.hasData| && 0 <= s.newNum <= |s.arrays[s.pw]|
    requires t == s.(hasData := s.hasData[s.pw := true], p := PSetNum, produced := s.produced + [s.arrays[s.pw][..s.newNum]])
    requires Cursors(t) && Oldest(t) == Oldest(s)
    ensures SlotHolds(t.hasData[i], t.numRead[i], t.arrays[i], t.produced[t.cleared..], Age(i, Oldest(t), |t.hasData|), true)
  {
    var n, held := |s.hasData|, s.produced[s.cleared..];
    assert SlotHolds(s.hasData[i], s.numRead[i], s.arrays[i], held, Age(i, Oldest(s), n), false);
    assert t.produced[t.cleared..] == held + [s.arrays[s.pw][..s.newNum]];
  }

  lemma SetKeepsWindow(s: State, t: State)
    requires Shape(s) && Cursors(s) && Window(s) && s.p == PSet && 0 <= s.newNum <= |s.arrays[s.pw]|
    requires t == s.(hasData := s.hasData[s.pw := true], p := PSetNum, produced := s.produced + [s.arrays[s.pw][..s.newNum]])
    requires Cursors(t) && Oldest(t) == Oldest(s)
    ensures Window(t)
  {
    var n := |t.hasData|;
    forall i | 0 <= i < n
      ensures SlotHolds(t.hasData[i], t.numRead[i], t.arrays[i], t.produced[t.cleared..], Age(i, Oldest(t), n), true)
    {
      SetKeepsSlot(s, t, i);
    }
  }

  lemma SetNumKeepsSlot(s: State, t: State, i: nat)
    requires Shape(s) && Cursors(s) && Window(s) && s.p == PSetNum && i < |s.hasData|
    requires s.produced != [] && s.newNum == |s.produced[|s.produced| - 1]|
    requires t == s.(numRead := s.numRead[s.pw := s.newNum], p := PUnlock)
    requires Cursors(t) && Oldest(t) == Oldest(s)
    ensures SlotHolds(t.hasData[i], t.numRead[i], t.arrays[i], t.produced[t.cleared..], Age(i, Oldest(t), |t.hasData|), false)
  {
    var n, held := |s.hasData|, s.produced[s.cleared..];
    assert SlotHolds(s.hasData[i], s.numRead[i], s.arrays[i], held, Age(i, Oldest(s), n), true);
  }

  lemma SetNumKeepsWindow(s: State, t: State)
    requires Shape(s) && Cursors(s) && Window(s) && s.p == PSetNum
    requires s.produced != [] && s.newNum == |s.produced[|s.produced| - 1]|
    requires t == s.(numRead := s.numRead[s.pw := s.newNum], p := PUnlock)
    requires Cursors(t) && Oldest(t) == Oldest(s)
    ensures Window(t)
  {
    var n := |t.hasData|;
    forall i | 0 <= i < n
      ensures SlotHolds(t.hasData[i], t.numRead[i], t.arrays[i], t.produced[t.cleared..], Age(i, Oldest(t), n), false)
    {
      SetNumKeepsSlot(s, t, i);
    }
  }

  lemma ProducerKeepsWindow(s: State, t: State)
    requires Shape(s) && Cursors(s) && Window(s) && Phases(s)
    requires Enabled(s, ProducerRuns) && t == ProducerStep(s)
    requires Cursors(t) && Oldest(t) == Oldest(s)
    ensures Window(t)
  {
    if s.p == PSet {
      SetKeepsWindow(s, t);
    } else if s.p == PSetNum {
      SetNumKeepsWindow(s, t);
    } else {
      SameWindow(s, t);
    }
  }

  lemma ProducerKeepsPhases(s: State)
    requires Shape(s) && Locks(s) && Phases(s) && Enabled(s, ProducerRuns)
    ensures Phases(ProducerStep(s))
  {
  }

  lemma ProducerKeepsWakeups(s: State)
    requires Shape(s) && Locks(s) && Phases(s) && Wakeups(s) && Enabled(s, ProducerRuns)
    ensures Wakeups(ProducerStep(s))
  {
  }

  lemma ProducerKeepsLogs(s: State)
    requires Shape(s) && Logs(s) && Enabled(s, ProducerRuns)
    ensures Logs(ProducerStep(s))
  {
  }

  lemma ConsumerKeepsLocks(s: State)
    requires Shape(s) && Locks(s) && Enabled(s, ConsumerRuns)
    ensures Shape(ConsumerStep(s)) && Locks(ConsumerStep(s))
  {
    var t := ConsumerStep(s);
    forall i | 0 <= i < |t.mutex| ensures HeldBy(t, i, t.mutex[i]) {
      assert HeldBy(s, i, s.mutex[i]) && HeldBy(s, s.pw, s.mutex[s.pw]) && HeldBy(s, s.pr, s.mutex[s.pr]);
    }
  }

  /** The full slot at the consumer's cursor means that the ring is not empty. */
  lemma ClearHasArray(s: State)
    requires Shape(s) && Cursors(s) && Window(s) && s.c == CClear && s.hasData[s.pr]
    ensures s.cleared < |s.produced|
  {
    assert SlotHolds(s.hasData[s.pr], s.numRead[s.pr], s.arrays[s.pr], s.produced[s.cleared..], 0, s.p == PSetNum);
  }

  lemma ConsumerKeepsCursors(s: State)
    requires Shape(s) && Cursors(s) && Enabled(s, ConsumerRuns)
    requires s.c == CClear ==> s.cleared < |s.produced|
    ensures Cursors(ConsumerStep(s))
    ensures s.c != CClear ==> Oldest(ConsumerStep(s)) == Oldest(s)
  {
  }

  lemma SlotGrowsYounger(hasData: bool, numRead: int, events: seq<int>, held: seq<Batch>, age: nat, halfSet: bool)
    requires SlotHolds(hasData, numRead, events, held, age + 1, halfSet) && held != []
    ensures SlotHolds(hasData, numRead, events, held[1..], age, halfSet)
  {
  }

  /** One slot further on, every slot but the one passed by is one step closer, and that one is the furthest. */
  lemma AgesAfterNext(i: nat, r: nat, n: nat)
    requires i < n && r < n
    ensures i != r ==> Age(i, Next(r, n), n) == Age(i, r, n) - 1
    ensures i == r ==> Age(i, r, n) == 0 && Age(i, Next(r, n), n) == n - 1
  {
  }

  /** Dropping the oldest array held leaves every slot with its own, one step younger. */
  lemma SlotAfterDrop(hasData: bool, numRead: int, events: seq<int>, held: seq<Batch>, age: nat, after: nat, halfSet: bool)
    requires SlotHolds(hasData, numRead, events, held, age, halfSet) && held != []
    requires age > 0 ==> after == age - 1
    requires age == 0 ==> after >= |held| - 1
    ensures SlotHolds(hasData && age > 0, numRead, events, held[1..], after, halfSet)
  {
    if age > 0 { SlotGrowsYounger(hasData, numRead, events, held, after, halfSet); }
  }

  /** Clearing hasData drops the oldest array from the window. */
  lemma ClearKeepsSlot(s: State, t: State, i: nat)
    requires Shape(s) && Cursors(s) && Window(s) && s.c == CClear && i < |s.hasData| && s.cleared < |s.produced|
    requires t == s.(hasData := s.hasData[s.pr := false], cleared := s.cleared + 1, c := CUnlock) && Cursors(t)
    ensures SlotHolds(t.hasData[i], t.numRead[i], t.arrays[i], t.produced[t.cleared..], Age(i, Oldest(t), |t.hasData|), t.p == PSetNum)
  {
    var n, held := |s.hasData|, s.produced[s.cleared..];
    var age, after := Age(i, s.pr, n), Age(i, Next(s.pr, n), n);
    assert SlotHolds(s.hasData[i], s.numRead[i], s.arrays[i], held, age, s.p == PSetNum);
    AgesAfterNext(i, s.pr, n);
    SlotAfterDrop(s.hasData[i], s.numRead[i], s.arrays[i], held, age, after, s.p == PSetNum);
    assert t.produced[t.cleared..] == held[1..];
    assert Oldest(t) == Next(s.pr, n);
  }

  lemma ConsumerKeepsWindow(s: State, t: State)
    requires Shape(s) && Cursors(s) && Window(s) && Phases(s)
    requires Enabled(s, ConsumerRuns) && t == ConsumerStep(s) && Cursors(t)
    requires s.c != CClear ==> Oldest(t) == Oldest(s)
    ensures Window(t)
  {
    if s.c == CClear {
      ClearHasArray(s);
      forall i | 0 <= i < |s.hasData| { ClearKeepsSlot(s, t, i); }
    } else {
      SameWindow(s, t);
    }
  }

  lemma ConsumerKeepsPhases(s: State)
    requires Shape(s) && Locks(s) && Phases(s) && Enabled(s, ConsumerRuns)
    ensures Phases(ConsumerStep(s))
  {
    assert s.c == CTest ==> s.mutex[s.pr] == Consumer;
  }

  lemma ConsumerKeepsWakeups(s: State)
    requires Shape(s) && Locks(s) && Phases(s) && Wakeups(s) && Enabled(s, ConsumerRuns)
    ensures Wakeups(ConsumerStep(s))
  {
  }

  /** The array the consumer uses is the oldest one it has not used, whole and unchanged. */
  lemma ConsumerKeepsLogs(s: State)
    requires Inv(s) && Enabled(s, ConsumerRuns)
    ensures Logs(ConsumerStep(s))
  {
    assert s.c == CUse ==> s.hasData[s.pr] && Age(s.pr, Oldest(s), |s.hasData|) == 0;
  }

  lemma ProducerKeepsInv(s: State)
    requires Inv(s) && Enabled(s, ProducerRuns)
    ensures Inv(ProducerStep(s))
  {
    ProducerKeepsLocks(s);
    if s.p == PSet { SetHasRoom(s); }
    ProducerKeepsCursors(s);
    ProducerKeepsWindow(s, ProducerStep(s));
    ProducerKeepsPhases(s);
    ProducerKeepsWakeups(s);
    ProducerKeepsLogs(s);
  }

  lemma ConsumerKeepsInv(s: State)
    requires Inv(s) && Enabled(s, ConsumerRuns)
    ensures Inv(ConsumerStep(s))
  {
    ConsumerKeepsLocks(s);
    if s.c == CClear { ClearHasArray(s); }
    ConsumerKeepsCursors(s);
    ConsumerKeepsWindow(s, ConsumerStep(s));
    ConsumerKeepsPhases(s);
    ConsumerKeepsWakeups(s);
    ConsumerKeepsLogs(s);
  }

  lemma WritesKeepInv(s: State, events: seq<int>)
    requires Inv(s) && s.p == PFill
    ensures Inv(s.(arrays := s.arrays[s.pw := events]))
  {
    var n, t, held := |s.hasData|, s.(arrays := s.arrays[s.pw := events]), s.produced[s.cleared..];
    forall i | 0 <= i < n
      ensures SlotHolds(t.hasData[i], t.numRead[i], t.arrays[i], held, Age(i, Oldest(t), n), false)
    {
      assert SlotHolds(s.hasData[i], s.numRead[i], s.arrays[i], held, Age(i, Oldest(s), n), false);
    }
  }

  /** The end of a fill and spurious wake-ups only move a thread. */
  lemma ProducerMoveKeepsInv(s: State, t: State)
    requires Inv(s)
    requires if s.p == PFill then 0 <= t.newNum <= |s.arrays[s.pw]| && t == s.(newNum := t.newNum, p := PLock2)
             else s.p == PWait && t == s.(p := PRelock)
    ensures Inv(t)
  {
    SameWindow(s, t);
  }

  lemma ConsumerMoveKeepsInv(s: State)
    requires Inv(s) && s.c == CWait
    ensures Inv(s.(c := CRelock))
  {
    SameWindow(s, s.(c := CRelock));
  }

  /** Every atomic step of either thread keeps the invariant. */
  lemma StepKeepsInv(s: State, a: Action)
    requires Inv(s) && Enabled(s, a)
    ensures Inv(Apply(s, a))
  {
    match a
    case ProducerRuns => ProducerKeepsInv(s);
    case ConsumerRuns => ConsumerKeepsInv(s);
    case Writes(events) => WritesKeepInv(s, events);
    case Filled(count) => ProducerMoveKeepsInv(s, s.(newNum := count, p := PLock2));
    case ProducerSpurious => ProducerMoveKeepsInv(s, s.(p := PRelock));
    case ConsumerSpurious => ConsumerMoveKeepsInv(s);
  }

  // ----- whole runs -----

  /** A run: the states passed through and the atomic steps taken, in any interleaving. */
  ghost predicate IsRun(states: seq<State>, actions: seq<Action>) {
    && |states| == |actions| + 1
    && (forall i :: 0 <= i < |states| ==> Shape(states[i]))
    && (forall i :: 0 <= i < |actions| ==>
          Enabled(states[i], actions[i]) && states[i + 1] == Apply(states[i], actions[i]))
  }

  ghost predicate Starts(s: State) {
    exists n: nat, arrays: seq<seq<int>> :: n > 0 && |arrays| == n && s == Init(n, arrays)
  }

  lemma {:induction false} RunKeepsInv(states: seq<State>, actions: seq<Action>, k: nat)
    requires IsRun(states, actions) && Inv(states[0]) && k < |states|
    ensures Inv(states[k])
  {
    if k > 0 {
      RunKeepsInv(states, actions, k - 1);
      StepKeepsInv(states[k - 1], actions[k - 1]);
    }
  }

  /** In every run and every ring size the main loop uses exactly the arrays that
      were produced, whole, in order and with the right number of events, and the
      two threads never hold the same slot, not even while numRead is read
      without the mutex. */
  lemma ConsumedIsPrefixOfProduced(states: seq<State>, actions: seq<Action>, k: nat)
    requires IsRun(states, actions) && Starts(states[0]) && k < |states|
    ensures
      var s := states[k];
      && s.consumed <= s.produced
      && |s.produced| - |s.hasData| <= |s.consumed|
      && (ProducerHolds(s.p) && ConsumerHolds(s.c) ==> s.pw != s.pr)
      && (s.c == CUse ==> s.cleared < |s.produced| && s.got == |s.produced[s.cleared]|
                          && s.got <= |s.arrays[s.pr]| && s.arrays[s.pr][..s.got] == s.produced[s.cleared])
  {
    var n: nat, arrays: seq<seq<int>> :| n > 0 && |arrays| == n && states[0] == Init(n, arrays);
    InitInv(n, arrays);
    RunKeepsInv(states, actions, k);
    var s := states[k];
    if s.c == CUse {
      assert SlotHolds(s.hasData[s.pr], s.numRead[s.pr], s.arrays[s.pr], s.produced[s.cleared..],
                       Age(s.pr, Oldest(s), |s.hasData|), s.p == PSetNum);
    }
  }

  // ----- what is handed over is what was filled -----

  /** The first n events of an array. */
  function Front(events: seq<int>, n: int): Batch { if 0 <= n <= |events| then events[..n] else [] }

  /** What the fill that is in progress has written last, if anything. */
  function Written(actions: seq<Action>): Option<seq<int>> {
    if |actions| == 0 then None
    else if actions[|actions| - 1].Writes? then Some(actions[|actions| - 1].events)
    else if actions[|actions| - 1].Filled? then None
    else Written(actions[..|actions| - 1])
  }

  /** What the fills of a run have made, in their order: of the events that a fill has written
      the first so many as et_events_new_group then says. Without having written anything it
      leaves what lies in the array. */
  ghost function Fills(states: seq<State>, actions: seq<Action>): seq<Batch>
    requires IsRun(states, actions)
  {
    if |actions| == 0 then []
    else
      var n := |actions| - 1;
      var before, last, s := actions[..n], actions[n], states[n];
      if last.Filled? then
        Fills(states[..n + 1], before) + [Front(if Written(before).Some? then Written(before).value else s.arrays[s.pw], last.count)]
      else Fills(states[..n + 1], before)
  }

  /** Filled, and not handed over yet. */
  function Pending(s: State): seq<Batch>
    requires Shape(s)
  {
    if s.p == PLock2 || s.p == PSet then [Front(s.arrays[s.pw], s.newNum)] else []
  }

  lemma HandOverPending(s: State)
    requires Inv(s) && Enabled(s, ProducerRuns)
    ensures Shape(ProducerStep(s)) && ProducerStep(s).produced + Pending(ProducerStep(s)) == s.produced + Pending(s)
  {
    if s.p == PSet { assert s.produced + Pending(s) + [] == s.produced + Pending(s); }
  }

  lemma ConsumerKeepsPending(s: State)
    requires Shape(s) && Enabled(s, ConsumerRuns)
    ensures Shape(ConsumerStep(s)) && ConsumerStep(s).produced == s.produced && Pending(ConsumerStep(s)) == Pending(s)
  {
  }

  lemma PendingKept(s: State, a: Action)
    requires Inv(s) && Enabled(s, a) && !a.Filled?
    ensures Shape(Apply(s, a)) && Apply(s, a).produced + Pending(Apply(s, a)) == s.produced + Pending(s)
  {
    if a.ProducerRuns? {
      HandOverPending(s);
    } else if a.ConsumerRuns? {
      ConsumerKeepsPending(s);
    }
  }

  lemma PendingFilled(s: State, count: nat)
    requires Inv(s) && Enabled(s, Filled(count))
    ensures Shape(Apply(s, Filled(count))) && Apply(s, Filled(count)).produced == s.produced && Pending(s) == []
    ensures Pending(Apply(s, Filled(count))) == [Front(s.arrays[s.pw], count)]
  {
  }

  lemma {:induction false} WrittenLies(states: seq<State>, actions: seq<Action>)
    requires IsRun(states, actions) && Written(actions).Some?
    requires states[0].p == PLock
    ensures var s := states[|actions|]; s.p == PFill && s.arrays[s.pw] == Written(actions).value
  {
    var n := |actions| - 1;
    var s, t, a := states[n], states[n + 1], actions[n];
    if !a.Writes? {
      WrittenLies(states[..n + 1], actions[..n]);
      FillStays(s, a);
    }
  }

  lemma FillStays(s: State, a: Action)
    requires Shape(s) && Enabled(s, a) && s.p == PFill && !a.Writes? && !a.Filled?
    ensures Apply(s, a).p == PFill && Apply(s, a).arrays == s.arrays && Apply(s, a).pw == s.pw
  {
  }

  lemma OneMoreFill(states: seq<State>, actions: seq<Action>, k: nat)
    requires IsRun(states, actions) && |actions| == k + 1 && states[0].p == PLock && Inv(states[k])
    requires Fills(states[..k + 1], actions[..k]) == states[k].produced + Pending(states[k])
    ensures Fills(states, actions) == states[k + 1].produced + Pending(states[k + 1])
  {
    var s, a := states[k], actions[k];
    if a.Filled? {
      PendingFilled(s, a.count);
      if Written(actions[..k]).Some? { WrittenLies(states[..k + 1], actions[..k]); }
    } else {
      PendingKept(s, a);
    }
  }

  /** In every run the arrays handed over are those that were filled, in order: the k-th has
      the first so many events of the k-th fill as that has said. At most the last one filled
      is still to be handed over. */
  lemma {:induction false} FillsAreProduced(states: seq<State>, actions: seq<Action>)
    requires IsRun(states, actions) && Starts(states[0])
    ensures Fills(states, actions) == states[|actions|].produced + Pending(states[|actions|])
  {
    if |actions| > 0 {
      var k := |actions| - 1;
      FillsAreProduced(states[..k + 1], actions[..k]);
      StartedInv(states, actions, k);
      OneMoreFill(states, actions, k);
    }
  }

  lemma StartedInv(states: seq<State>, actions: seq<Action>, k: nat)
    requires IsRun(states, actions) && Starts(states[0]) && k < |states|
    ensures Inv(states[k])
  {
    var n: nat, arrays: seq<seq<int>> :| n > 0 && |arrays| == n && states[0] == Init(n, arrays);
    InitInv(n, arrays);
    RunKeepsInv(states, actions, k);
  }

  /** The queue the ring stands for. */
  ghost function Queue(s: State): seq<Batch>
    requires s.cleared <= |s.produced|
  {
    s.produced[s.cleared..]
  }

  lemma Enqueues(s: State)
    requires Inv(s) && Enabled(s, ProducerRuns) && s.p == PSet
    ensures |Queue(s)| < |s.hasData| && 0 <= s.newNum <= |s.arrays[s.pw]|
    ensures ProducerStep(s).cleared == s.cleared && ProducerStep(s).produced == s.produced + [s.arrays[s.pw][..s.newNum]]
  {
    SetHasRoom(s);
  }

  lemma Dequeues(s: State)
    requires Inv(s) && Enabled(s, ConsumerRuns) && s.c == CClear
    ensures Queue(s) != [] && |s.consumed| == s.cleared + 1 && s.consumed[s.cleared] == Queue(s)[0]
    ensures ConsumerStep(s).cleared == s.cleared + 1 && ConsumerStep(s).produced == s.produced
  {
    ClearHasArray(s);
  }

  lemma QueueStays(s: State, a: Action)
    requires Inv(s) && Enabled(s, a) && !(a == ProducerRuns && s.p == PSet) && !(a == ConsumerRuns && s.c == CClear)
    ensures Apply(s, a).cleared == s.cleared && Apply(s, a).produced == s.produced
  {
  }

  /** Every step is invisible, appends the filled array to a queue that has room,
      or removes the oldest array from a queue that is not empty: the ring refines
      a bounded first-in first-out queue with as many places as it has slots. */
  lemma RefinesBoundedQueue(s: State, a: Action)
    requires Inv(s) && Enabled(s, a)
    ensures
      var t, n := Apply(s, a), |s.hasData|;
      && t.cleared <= |t.produced| && |t.hasData| == n
      && (if a == ProducerRuns && s.p == PSet then
            |Queue(s)| < n && Queue(t) == Queue(s) + [s.arrays[s.pw][..s.newNum]]
          else if a == ConsumerRuns && s.c == CClear then
            Queue(s) != [] && Queue(t) == Queue(s)[1..] && s.consumed[s.cleared] == Queue(s)[0]
          else
            Queue(t) == Queue(s))
  {
    if a == ProducerRuns && s.p == PSet {
      Enqueues(s);
    } else if a == ConsumerRuns && s.c == CClear {
      Dequeues(s);
    } else {
      QueueStays(s, a);
    }
  }

  // ----- wake-ups, deadlock and progress -----

  /** A slot never has two waiters, and whoever waits although its condition holds
      is about to be signalled by the other thread, which is not blocked. */
  lemma NoWakeupIsLost(s: State)
    requires Inv(s)
    ensures !(s.p == PWait && s.c == CWait && s.pw == s.pr)
    ensures s.p == PWait && !s.hasData[s.pw] ==> Enabled(s, ConsumerRuns) && (s.c.CUnlock? || s.c.CSignal?) && s.pr == s.pw
    ensures s.c == CWait && s.hasData[s.pr] ==> Enabled(s, ProducerRuns) && (s.p.PSetNum? || s.p.PUnlock? || s.p.PSignal?) && s.pw == s.pr
  {
  }

  predicate Spontaneous(a: Action) { a.Writes? || a == ProducerSpurious || a == ConsumerSpurious }

  /** A full slot at the producer's cursor means a full slot at the consumer's. */
  lemma NotBothWaiting(s: State)
    requires Inv(s)
    ensures !(s.p == PWait && s.c == CWait)
  {
    var n, held := |s.hasData|, s.produced[s.cleared..];
    assert SlotHolds(s.hasData[s.pw], s.numRead[s.pw], s.arrays[s.pw], held, Age(s.pw, Oldest(s), n), s.p == PSetNum);
    assert SlotHolds(s.hasData[s.pr], s.numRead[s.pr], s.arrays[s.pr], held, Age(s.pr, Oldest(s), n), s.p == PSetNum);
  }

  /** In no reachable state are both threads stuck, spurious wake-ups not counted. */
  lemma NeverDeadlocked(s: State)
    requires Inv(s)
    ensures exists a :: Enabled(s, a) && !Spontaneous(a)
  {
    NotBothWaiting(s);
    assert s.mutex[s.pw] == Producer <==> ProducerLocked(s.p);
    assert s.mutex[s.pr] == Consumer <==> ConsumerLocked(s.c);
    if s.p == PFill {
      assert Enabled(s, Filled(0));
    } else {
      assert Enabled(s, ProducerRuns) || Enabled(s, ConsumerRuns);
    }
  }

  /** An array changes hands: hasData is set or cleared. */
  predicate HandsOver(s: State, a: Action) {
    (a == ProducerRuns && s.p == PSet) || (a == ConsumerRuns && s.c == CClear)
  }

  function ProducerRank(p: ProducerAt, full: bool): (r: nat)
    ensures r <= 27
  {
    match p
    case PSetNum => 27 case PUnlock => 26 case PSignal => 25 case PAdvance => 21
    case PWait => if full then 1 else 12
    case PRelock => if full then 3 else 11
    case PLock => if full then 3 else 11
    case PTest => if full then 2 else 10
    case PGot => 9 case PFill => 8 case PLock2 => 7 case PSet => 6
  }

  function ConsumerRank(c: ConsumerAt, full: bool): (r: nat)
    ensures r <= 26
  {
    match c
    case CUnlock => 26 case CSignal => 25 case CAdvance => 21
    case CWait => if full then 12 else 1
    case CRelock => if full then 11 else 3
    case CLock => if full then 11 else 3
    case CTest => if full then 10 else 2
    case CGot => 9 case CReadNum => 8 case CUse => 7 case CLock2 => 6 case CClear => 5
  }

  ghost function Rank(s: State): nat
    requires Shape(s)
  {
    ProducerRank(s.p, s.hasData[s.pw]) + ConsumerRank(s.c, s.hasData[s.pr])
  }

  lemma ProducerLowersRank(s: State)
    requires Inv(s) && Enabled(s, ProducerRuns) && s.p != PSet
    ensures Shape(ProducerStep(s)) && Rank(ProducerStep(s)) < Rank(s)
  {
  }

  lemma ConsumerLowersRank(s: State)
    requires Inv(s) && Enabled(s, ConsumerRuns) && s.c != CClear
    ensures Shape(ConsumerStep(s)) && Rank(ConsumerStep(s)) < Rank(s)
  {
  }

  lemma StepLowersRank(s: State, a: Action)
    requires Inv(s) && Enabled(s, a) && !Spontaneous(a) && !HandsOver(s, a)
    ensures Shape(Apply(s, a)) && Rank(Apply(s, a)) < Rank(s)
  {
    match a
    case ProducerRuns => ProducerLowersRank(s);
    case ConsumerRuns => ConsumerLowersRank(s);
    case Filled(_) =>
  }

  lemma {:induction false} RankBoundsRun(states: seq<State>, actions: seq<Action>)
    requires IsRun(states, actions) && Inv(states[0])
    requires forall i :: 0 <= i < |actions| ==> !Spontaneous(actions[i]) && !HandsOver(states[i], actions[i])
    ensures |actions| + Rank(states[|actions|]) <= Rank(states[0])
  {
    if actions != [] {
      var k := |actions| - 1;
      RankBoundsRun(states[..k + 1], actions[..k]);
      RunKeepsInv(states, actions, k);
      StepLowersRank(states[k], actions[k]);
    }
  }

  /** The ring cannot livelock: whatever the ring size and the interleaving, out of
      any 54 steps other than spurious wake-ups and partial fills, one hands an array
      over. With NeverDeadlocked, arrays keep moving as long as the fills end. */
  lemma ArraysKeepMoving(states: seq<State>, actions: seq<Action>)
    requires IsRun(states, actions) && Inv(states[0]) && |actions| >= 54
    requires forall i :: 0 <= i < |actions| ==> !Spontaneous(actions[i])
    ensures exists i :: 0 <= i < |actions| && HandsOver(states[i], actions[i])
  {
    if forall i :: 0 <= i < |actions| ==> !HandsOver(states[i], actions[i]) {
      RankBoundsRun(states, actions);
      assert false;
    }
  }

  // ----- the program's own variables -----

  /** The slots, cursors and locals of the two threads. Each method is one atomic
      step of a thread, and does to the variables what its transition says. */
  class Blaster {
    const hasData: array<bool>
    const numRead: array<int>
    const pEvents: array<seq<int>>
    const mutex: array<Holder>
    var pWriteBuf: nat
    var pReadBuf: nat
    var p: ProducerAt
    var c: ConsumerAt
    var newNum: int
    var got: int
    ghost var produced: seq<Batch>
    ghost var consumed: seq<Batch>
    ghost var cleared: nat

    ghost function Now(): State
      reads this, hasData, numRead, pEvents, mutex
    {
      State(hasData[..], numRead[..], pEvents[..], mutex[..], pWriteBuf, pReadBuf, p, c,
            newNum, got, produced, consumed, cleared)
    }

    /** initLocksAndBuffers, for a ring of circBufSize slots. */
    constructor (circBufSize: nat, chunks: nat)
      requires circBufSize > 0
      ensures Now() == Init(circBufSize, seq(circBufSize, _ => seq(chunks, _ => 0))) && Sound(Now())
      ensures fresh(hasData) && fresh(numRead) && fresh(pEvents) && fresh(mutex)
    {
      hasData := new bool[circBufSize](_ => false);
      numRead := new int[circBufSize](_ => 0);
      pEvents := new seq<int>[circBufSize](_ => seq(chunks, _ => 0));
      mutex := new Holder[circBufSize](_ => Free);
      pWriteBuf, pReadBuf := 0, 0;
      p, c := PLock, CLock;
      newNum, got := 0, 0;
      produced, consumed, cleared := [], [], 0;
      new;
      InitSound(circBufSize, seq(circBufSize, _ => seq(chunks, _ => 0)));
    }

    /** One step of getEmptyArray or putDataArrayInQ. */
    method RunProducer()
      requires Shape(Now()) && Enabled(Now(), ProducerRuns)
      modifies this, hasData, numRead, mutex
      ensures Now() == ProducerStep(old(Now()))
    {
      match p {
        case PLock | PRelock | PLock2 =>
          mutex[pWriteBuf] := Producer;
          p := if p == PLock2 then PSet else PTest;
        case PTest =>
          if hasData[pWriteBuf] {
            mutex[pWriteBuf] := Free;
            p := PWait;
          } else {
            p := PGot;
          }
        case PGot =>
          mutex[pWriteBuf] := Free;
          p := PFill;
        case PSet =>
          hasData[pWriteBuf] := true;
          var events := pEvents[pWriteBuf];
          produced := produced + [if 0 <= newNum <= |events| then events[..newNum] else []];
          p := PSetNum;
        case PSetNum =>
          numRead[pWriteBuf] := newNum;
          p := PUnlock;
        case PUnlock =>
          mutex[pWriteBuf] := Free;
          p := PSignal;
        case PSignal =>
          if c == CWait && pReadBuf == pWriteBuf { c := CRelock; }
          p := PAdvance;
        case PAdvance =>
          pWriteBuf := Next(pWriteBuf, hasData.Length);
          p := PLock;
      }
    }

    /** One step of getDataArrayFromQ, of the main loop or of doneWithDataArray. */
    method RunConsumer()
      requires Shape(Now()) && Enabled(Now(), ConsumerRuns)
      modifies this, hasData, mutex
      ensures Now() == ConsumerStep(old(Now()))
    {
      match c {
        case CLock | CRelock | CLock2 =>
          mutex[pReadBuf] := Consumer;
          c := if c == CLock2 then CClear else CTest;
        case CTest =>
          if hasData[pReadBuf] {
            c := CGot;
          } else {
            mutex[pReadBuf] := Free;
            c := CWait;
          }
        case CGot =>
          mutex[pReadBuf] := Free;
          c := CReadNum;
        case CReadNum =>
          got := numRead[pReadBuf];
          c := CUse;
        case CUse =>
          var events := pEvents[pReadBuf];
          consumed := consumed + [if 0 <= got <= |events| then events[..got] else []];
          c := CLock2;
        case CClear =>
          hasData[pReadBuf] := false;
          cleared := cleared + 1;
          c := CUnlock;
        case CUnlock =>
          mutex[pReadBuf] := Free;
          c := CSignal;
        case CSignal =>
          if p == PWait && pWriteBuf == pReadBuf { p := PRelock; }
          c := CAdvance;
        case CAdvance =>
          pReadBuf := Next(pReadBuf, hasData.Length);
          c := CLock;
      }
    }

    /** et_events_new_group writes into the slot's array, then returns count. */
    method Fill(events: seq<int>, count: nat)
      requires Shape(Now()) && p == PFill && count <= |events|
      modifies this`newNum, this`p, pEvents
      ensures Now() == Apply(Apply(old(Now()), Writes(events)), Filled(count))
      ensures newNum == count && pEvents[..] == old(pEvents[..])[pWriteBuf := events] && p == PLock2
    {
      pEvents[pWriteBuf] := events;
      newNum := count;
      p := PLock2;
    }

    // ----- the four functions, with the other thread's steps between their own -----

    predicate ProducerCanRun()
      requires pWriteBuf < mutex.Length
      reads this, mutex
    { if p.PLock? || p.PRelock? || p.PLock2? then mutex[pWriteBuf] == Free else p != PWait && p != PFill }

    predicate ConsumerCanRun()
      requires pReadBuf < mutex.Length
      reads this, mutex
    { if c.CLock? || c.CRelock? || c.CLock2? then mutex[pReadBuf] == Free else c != CWait }

    /** One step of the producer, which keeps the invariant. */
    method ProducerGoes()
      requires Sound(Now()) && Enabled(Now(), ProducerRuns)
      modifies this, hasData, numRead, mutex
      ensures Sound(Now()) && Now() == ProducerStep(old(Now()))
    {
      StepKeepsSound(Now(), ProducerRuns);
      RunProducer();
    }

    method ConsumerGoes()
      requires Sound(Now()) && Enabled(Now(), ConsumerRuns)
      modifies this, hasData, mutex
      ensures Sound(Now()) && Now() == ConsumerStep(old(Now()))
    {
      StepKeepsSound(Now(), ConsumerRuns);
      RunConsumer();
    }

    /** Whatever the consumer does meanwhile; and waits may end without a signal. */
    method LetConsumer()
      requires Sound(Now())
      modifies this, hasData, mutex
      ensures Sound(Now()) && ProducerKept(old(Now()), Now())
    {
      var turns: nat := *;
      while turns > 0
        invariant Sound(Now()) && ProducerKept(old(Now()), Now())
        decreases turns
      {
        ghost var s := Now();
        var spurious: bool := *;
        if spurious && p == PWait {
          StepKeepsSound(s, ProducerSpurious);
          p := PRelock;
        } else if spurious && c == CWait {
          StepKeepsSound(s, ConsumerSpurious);
          c := CRelock;
        } else if ConsumerCanRun() {
          ConsumerLeaves(s);
          ConsumerGoes();
        }
        turns := turns - 1;
      }
    }

    /** Whatever the producer does meanwhile. */
    method LetProducer()
      requires Sound(Now())
      modifies this, hasData, numRead, mutex, pEvents
      ensures Sound(Now()) && ConsumerKept(old(Now()), Now())
    {
      var turns: nat := *;
      while turns > 0
        invariant Sound(Now()) && ConsumerKept(old(Now()), Now())
        decreases turns
      {
        ghost var s := Now();
        var spurious: bool := *;
        if spurious && c == CWait {
          StepKeepsSound(s, ConsumerSpurious);
          c := CRelock;
        } else if spurious && p == PWait {
          StepKeepsSound(s, ProducerSpurious);
          p := PRelock;
        } else if p == PFill {
          var events: seq<int>, count: nat := *, *;
          if count <= |events| {
            StepKeepsSound(s, Writes(events));
            StepKeepsSound(Apply(s, Writes(events)), Filled(count));
            Fill(events, count);
          }
        } else if ProducerCanRun() {
          ProducerLeaves(s);
          ProducerGoes();
        }
        turns := turns - 1;
      }
    }

    /** mutexLock of the slot to write. It may not come to an end. */
    method LockWrite(patience: nat) returns (locked: bool)
      requires Sound(Now()) && (p.PLock? || p.PRelock? || p.PLock2?)
      modifies this, hasData, numRead, mutex
      ensures Sound(Now()) && ProducerSame(old(Now()), Now())
      ensures p == if locked then (if old(p) == PLock2 then PSet else PTest) else old(p)
    {
      LetConsumer();
      var tries := patience;
      while mutex[pWriteBuf] != Free && tries > 0
        invariant Sound(Now()) && ProducerSame(old(Now()), Now()) && p == old(p)
      {
        LetConsumer();
        tries := tries - 1;
      }
      locked := mutex[pWriteBuf] == Free;
      if locked {
        ProducerGoes();
        LetConsumer();
      }
    }

    /** The producer sleeps until it is woken, if ever. */
    method SleepWrite(patience: nat) returns (woken: bool)
      requires Sound(Now()) && p == PWait
      modifies this, hasData, mutex
      ensures Sound(Now()) && ProducerSame(old(Now()), Now()) && p == if woken then PRelock else PWait
    {
      var tries := patience;
      while p == PWait && tries > 0
        invariant Sound(Now()) && ProducerSame(old(Now()), Now()) && (p == PWait || p == PRelock)
      {
        LetConsumer();
        tries := tries - 1;
      }
      woken := p == PRelock;
    }

    /** getEmptyArray. If it ends, the slot is empty and the producer's alone. */
    method GetEmptyArray(patience: nat) returns (done: bool, pe: nat)
      requires Sound(Now()) && p == PLock
      modifies this, hasData, numRead, mutex
      ensures Sound(Now()) && ProducerSame(old(Now()), Now()) && (done <==> p == PFill)
      ensures done ==> pe == pWriteBuf && !hasData[pe]
    {
      pe := pWriteBuf;
      done := LockWrite(patience);
      if !done { return; }
      var tries := patience;
      while hasData[pWriteBuf]
        invariant Sound(Now()) && ProducerSame(old(Now()), Now()) && p == PTest
        decreases tries
      {
        ProducerGoes();                    // pthread_cond_wait lets go of the mutex
        done := SleepWrite(tries);
        if !done || tries == 0 { return false, pe; }
        done := LockWrite(patience);
        if !done { return; }
        tries := tries - 1;
      }
      ProducerGoes();
      LetConsumer();
      ProducerGoes();                      // unlocks
      SoundSays(Now());
      done, pe := true, pWriteBuf;
    }

    /** putDataArrayInQ. If it ends, it has handed over one array, what lies in the slot. */
    method PutDataArrayInQ(patience: nat) returns (done: bool)
      requires Sound(Now()) && p == PLock2
      modifies this, hasData, numRead, mutex
      ensures Sound(Now())
      ensures old(pWriteBuf < pEvents.Length && 0 <= newNum <= |pEvents[pWriteBuf]|)
      ensures if done then p == PLock && pWriteBuf == Next(old(pWriteBuf), hasData.Length)
                           && produced == old(produced) + [old(pEvents[pWriteBuf][..newNum])]
              else p == PLock2 && ProducerSame(old(Now()), Now())
    {
      SoundSays(Now());
      done := LockWrite(patience);
      if !done { return; }
      ProducerGoes();                      // hasData
      Announce();
    }

    /** The rest of putDataArrayInQ. */
    method Announce()
      requires Sound(Now()) && p == PSetNum
      modifies this, hasData, numRead, mutex
      ensures Sound(Now()) && p == PLock && pWriteBuf == Next(old(pWriteBuf), hasData.Length) && produced == old(produced)
    {
      LetConsumer();
      ProducerGoes();                      // numRead
      LetConsumer();
      ProducerGoes();                      // unlock
      WriteNext();
    }

    method WriteNext()
      requires Sound(Now()) && p == PSignal
      modifies this, hasData, numRead, mutex
      ensures Sound(Now()) && p == PLock && pWriteBuf == Next(old(pWriteBuf), hasData.Length) && produced == old(produced)
    {
      LetConsumer();
      ProducerGoes();                      // signal
      LetConsumer();
      ProducerGoes();                      // next slot
    }

    /** One turn of the new-events thread. If it ends, it has handed over the events it got. */
    method NewEvents(events: seq<int>, count: nat, patience: nat) returns (done: bool)
      requires Sound(Now()) && p == PLock && count <= |events|
      modifies this, hasData, numRead, mutex, pEvents
      ensures Sound(Now()) && (done ==> p == PLock && produced == old(produced) + [events[..count]])
    {
      var pe;
      done, pe := GetEmptyArray(patience);
      if !done { return; }
      StepKeepsSound(Now(), Writes(events));
      StepKeepsSound(Apply(Now(), Writes(events)), Filled(count));
      Fill(events, count);
      done := PutDataArrayInQ(patience);
    }

    /** mutexLock of the slot to read. */
    method LockRead(patience: nat) returns (locked: bool)
      requires Sound(Now()) && (c.CLock? || c.CRelock? || c.CLock2?)
      modifies this, hasData, numRead, mutex, pEvents
      ensures Sound(Now()) && ConsumerSame(old(Now()), Now())
      ensures c == if locked then (if old(c) == CLock2 then CClear else CTest) else old(c)
    {
      LetProducer();
      var tries := patience;
      while mutex[pReadBuf] != Free && tries > 0
        invariant Sound(Now()) && ConsumerSame(old(Now()), Now()) && c == old(c)
      {
        LetProducer();
        tries := tries - 1;
      }
      locked := mutex[pReadBuf] == Free;
      if locked {
        ConsumerGoes();
        LetProducer();
      }
    }

    method SleepRead(patience: nat) returns (woken: bool)
      requires Sound(Now()) && c == CWait
      modifies this, hasData, numRead, mutex, pEvents
      ensures Sound(Now()) && ConsumerSame(old(Now()), Now()) && c == if woken then CRelock else CWait
    {
      var tries := patience;
      while c == CWait && tries > 0
        invariant Sound(Now()) && ConsumerSame(old(Now()), Now()) && (c == CWait || c == CRelock)
      {
        LetProducer();
        tries := tries - 1;
      }
      woken := c == CRelock;
    }

    /** The waiting part of getDataArrayFromQ. */
    method AwaitData(patience: nat) returns (done: bool)
      requires Sound(Now()) && c == CLock
      modifies this, hasData, numRead, mutex, pEvents
      ensures Sound(Now()) && ConsumerSame(old(Now()), Now()) && c != CUse && (done ==> c == CTest && hasData[pReadBuf])
    {
      done := LockRead(patience);
      if !done { return; }
      var tries := patience;
      while !hasData[pReadBuf]
        invariant Sound(Now()) && ConsumerSame(old(Now()), Now()) && c == CTest
        decreases tries
      {
        ConsumerGoes();                    // pthread_cond_wait lets go of the mutex
        done := SleepRead(tries);
        if !done || tries == 0 { return false; }
        done := LockRead(patience);
        if !done { return; }
        tries := tries - 1;
      }
      done := true;
    }

    /** getDataArrayFromQ. If it ends, the slot holds the first array not used yet, and the
        number is how many events that has, though it is read without the mutex. */
    method GetDataArrayFromQ(patience: nat) returns (done: bool, pe: nat, num: int)
      requires Sound(Now()) && c == CLock
      modifies this, hasData, numRead, mutex, pEvents
      ensures Sound(Now()) && ConsumerSame(old(Now()), Now()) && (done <==> c == CUse)
      ensures done ==> pe == pReadBuf && num == got && |consumed| < |produced|
                       && 0 <= num <= |pEvents[pe]| && pEvents[pe][..num] == produced[|consumed|]
    {
      pe, num := pReadBuf, 0;
      done := AwaitData(patience);
      if !done { return; }
      ConsumerGoes();
      LetProducer();
      ConsumerGoes();                      // unlocks
      LetProducer();
      ConsumerGoes();                      // reads the number
      num := got;
      HasNext(Now());
    }

    /** The array is used: put into the ET system. */
    method Use()
      requires Sound(Now()) && c == CUse
      modifies this, hasData, mutex
      ensures Sound(Now()) && c == CLock2 && produced == old(produced) && |old(consumed)| < |produced|
      ensures consumed == produced[..|old(consumed)| + 1]
    {
      SoundSays(Now());
      HasNext(Now());
      ghost var s := Now();
      ConsumerGoes();
      assert consumed == s.consumed + [s.produced[|s.consumed|]];
    }

    /** doneWithDataArray. If it ends, it has given back the slot of one array. */
    method DoneWithDataArray(patience: nat) returns (done: bool)
      requires Sound(Now()) && c == CLock2
      modifies this, hasData, numRead, mutex, pEvents
      ensures Sound(Now()) && consumed == old(consumed) && old(produced) <= produced
      ensures if done then c == CLock && pReadBuf == Next(old(pReadBuf), hasData.Length) && cleared == old(cleared) + 1
              else c == CLock2 && ConsumerSame(old(Now()), Now())
    {
      done := LockRead(patience);
      if !done { return; }
      ConsumerGoes();                      // hasData
      Release();
    }

    /** One turn of the main loop. If it ends, it has used the next array and given it back. */
    method PutEvents(patience: nat) returns (done: bool, ghost events: seq<int>)
      requires Sound(Now()) && c == CLock
      modifies this, hasData, numRead, mutex, pEvents
      ensures Sound(Now()) && old(produced) <= produced && |old(consumed)| <= |consumed| <= |produced|
      ensures done ==> c == CLock && |consumed| == |old(consumed)| + 1 && consumed == produced[..|consumed|]
      ensures done ==> events == consumed[|old(consumed)|]
    {
      var pe, num;
      events := [];
      done, pe, num := GetDataArrayFromQ(patience);
      if !done { SoundSays(Now()); return; }
      events := pEvents[pe][..num];
      Use();
      ghost var used := consumed;
      done := DoneWithDataArray(patience);
      SoundSays(Now());
    }

    /** The rest of doneWithDataArray. */
    method Release()
      requires Sound(Now()) && c == CUnlock
      modifies this, hasData, numRead, mutex, pEvents
      ensures Sound(Now()) && consumed == old(consumed) && old(produced) <= produced && cleared == old(cleared)
      ensures c == CLock && pReadBuf == Next(old(pReadBuf), hasData.Length)
    {
      LetProducer();
      ConsumerGoes();                      // unlock
      ReadNext();
    }

    method ReadNext()
      requires Sound(Now()) && c == CSignal
      modifies this, hasData, numRead, mutex, pEvents
      ensures Sound(Now()) && consumed == old(consumed) && old(produced) <= produced && cleared == old(cleared)
      ensures c == CLock && pReadBuf == Next(old(pReadBuf), hasData.Length)
    {
      LetProducer();
      ConsumerGoes();                      // signal
      LetProducer();
      ConsumerGoes();                      // next slot
    }
  }

  /** The invariant, for the methods of Blaster, which need little of what it says: it is
      unfolded only for a state that is named. */
  ghost predicate Sound(s: State) { Shape(s) && forall t {:trigger Named(t)} :: Named(t) && t == s ==> Inv(t) }

  predicate Named(s: State) { true }

  lemma SoundIs(s: State)
    requires Sound(s)
    ensures Inv(s)
  {
    assert Named(s);
  }

  lemma StepKeepsSound(s: State, a: Action)
    requires Sound(s) && Enabled(s, a)
    ensures Sound(Apply(s, a))
  {
    SoundIs(s);
    StepKeepsInv(s, a);
  }

  lemma InitSound(n: nat, arrays: seq<seq<int>>)
    requires n > 0 && |arrays| == n
    ensures Sound(Init(n, arrays))
  {
    InitInv(n, arrays);
  }

  /** What the methods need. */
  lemma SoundSays(s: State)
    requires Sound(s)
    ensures ProducerHolds(s.p) ==> !s.hasData[s.pw]
    ensures s.p == PLock2 ==> 0 <= s.newNum <= |s.arrays[s.pw]|
    ensures |s.consumed| <= |s.produced| && s.consumed == s.produced[..|s.consumed|]
  {
    SoundIs(s);
  }

  /** What the consumer is about to use. */
  lemma HasNext(s: State)
    requires Sound(s) && s.c == CUse
    ensures |s.consumed| < |s.produced| && 0 <= s.got <= |s.arrays[s.pr]|
    ensures s.arrays[s.pr][..s.got] == s.produced[|s.consumed|]
  {
    SoundIs(s);
    assert SlotHolds(s.hasData[s.pr], s.numRead[s.pr], s.arrays[s.pr], s.produced[s.cleared..],
                     Age(s.pr, Oldest(s), |s.hasData|), s.p == PSetNum);
  }

  // ----- what each thread leaves the other -----

  /** What only the producer changes. */
  ghost predicate ProducerSame(s: State, t: State) {
    && |t.hasData| == |s.hasData| && t.pw == s.pw && t.produced == s.produced
    && t.arrays == s.arrays && t.newNum == s.newNum && t.numRead == s.numRead
  }

  /** And where it is, unless it is woken. */
  ghost predicate ProducerKept(s: State, t: State) {
    ProducerSame(s, t) && (t.p == s.p || (s.p == PWait && t.p == PRelock))
  }

  ghost predicate ConsumerSame(s: State, t: State) {
    && |t.hasData| == |s.hasData| && t.pr == s.pr && t.consumed == s.consumed && t.cleared == s.cleared
    && s.produced <= t.produced
  }

  ghost predicate ConsumerKept(s: State, t: State) {
    ConsumerSame(s, t) && t.got == s.got && (t.c == s.c || (s.c == CWait && t.c == CRelock))
  }

  lemma ConsumerLeaves(s: State)
    requires Shape(s) && Enabled(s, ConsumerRuns)
    ensures ProducerKept(s, ConsumerStep(s))
  {
  }

  lemma ProducerLeaves(s: State)
    requires Shape(s) && Enabled(s, ProducerRuns)
    ensures ConsumerKept(s, ProducerStep(s))
  {
  }
}
