/** The system's heart monitor (et_sys_heartmonitor), and when it takes a client's slot.

    In each round it copies the heartbeats of all open slots and the times they were taken,
    under the system's lock. Then it looks at one slot after the other, without the lock,
    and compares what it has copied with what it remembers. A slot that it finds dead it
    cleans up, under the lock again. Clients go on all the while. */
module HeartMonitor {
  import opened Options
  import T = ProcessTable

  /** ET_HBMODULO. Heartbeats are less. */
  const HBMODULO: nat := 0xFFFF_FFFF

  datatype Seen = Seen(beat: nat, time: nat)

  datatype State = State(
    table: T.State,
    now: seq<Seen>,              // proc[i].heartbeat and proc[i].time
    kept: seq<Seen>,             // oldheartbt[i] and oldTime[i]
    read: seq<Seen>,             // newheartbt[i] and newTime[i]
    next: nat,                   // the slot to look at; the number of slots after a round
    doomed: Option<nat>,         // the slot found dead and not yet cleaned up
    last: seq<Option<Seen>>,     // history: what the slots open at the last copy had then
    before: seq<Option<Seen>>,   // history: and at the copy before
    times: set<nat>)             // history: all times so far

  datatype Step =
    | Client(step: T.Step, time: nat)   // time: when a client takes a slot
    | Beat(c: nat)
    | Copy
    | Look
    | Sweep(i: nat)

  predicate Shaped(s: State) {
    && T.Shaped(s.table)
    && |s.now| == |s.kept| == |s.read| == |s.last| == |s.before| == |s.table.proc|
    && (s.doomed.Some? ==> s.doomed.value < |s.now|)
  }

  predicate Possible(s: State, step: Step)
    requires Shaped(s)
  {
    match step
    case Client(x, _) => !x.Sweep? && T.Possible(s.table, x)
    case Beat(c) => c in s.table.clients && s.table.clients[c].heart
    case Copy => s.next >= |s.now| && s.doomed == None
    case Look => s.next < |s.now| && s.doomed == None
    case Sweep(i) => s.doomed == Some(i)
  }

  function Next(s: State, step: Step): State
    requires Shaped(s) && Possible(s, step)
  {
    match step
    case Client(x, time) => AfterClient(s, x, time)
    case Beat(c) => s.(now := Beaten(s.now, s.table.clients[c].slot))
    case Copy => Copied(s)
    case Look => Looked(s)
    case Sweep(i) =>
      s.(table := T.Next(s.table, T.Sweep(i)), now := s.now[i := Seen(0, 0)], kept := s.kept[i := s.kept[i].(beat := 0)], doomed := None)
  }

  function AfterClient(s: State, x: T.Step, time: nat): State
    requires Shaped(s) && T.Possible(s.table, x) && !x.Sweep?
  {
    var t := s.(table := T.Next(s.table, x));
    if x.Claim? then
      var i := T.FirstFree(s.table.proc);
      t.(now := s.now[i := s.now[i].(time := time)], times := s.times + {time})
    else if x.Release? then t.(now := s.now[s.table.clients[x.c].slot := Seen(0, 0)])
    else t
  }

  function Beaten(now: seq<Seen>, i: nat): seq<Seen>
    requires i < |now|
  { now[i := now[i].(beat := (now[i].beat + 1) % HBMODULO)] }

  function Copied(s: State): State
    requires Shaped(s)
  {
    s.(read := seq(|s.now|, i requires 0 <= i < |s.now| => if s.table.proc[i].open then s.now[i] else s.read[i]),
       before := s.last,
       last := seq(|s.now|, i requires 0 <= i < |s.now| => if s.table.proc[i].open then Some(s.now[i]) else None),
       next := 0)
  }

  function Looked(s: State): State
    requires Shaped(s) && s.next < |s.now|
  {
    var i, t := s.next, s.(next := s.next + 1);
    if !s.table.proc[i].open then t
    else if s.kept[i].beat != s.read[i].beat then t.(kept := s.kept[i := s.read[i]])
    else if s.kept[i].time != s.read[i].time then t.(kept := s.kept[i := s.kept[i].(time := s.read[i].time)])
    else t.(doomed := Some(i))
  }

  lemma NextShaped(s: State, step: Step)
    requires Shaped(s) && Possible(s, step)
    ensures Shaped(Next(s, step)) && |Next(s, step).now| == |s.now|
  {
    if step.Client? { T.NextShaped(s.table, step.step); }
    if step.Sweep? { T.NextShaped(s.table, T.Sweep(step.i)); }
  }

  // ----- runs, and what they are for the table -----

  predicate PossibleRun(s: State, steps: seq<Step>)
    requires Shaped(s)
    decreases |steps|, 0
  {
    |steps| > 0 ==>
      PossibleRun(s, steps[..|steps| - 1]) && Possible(Run(s, steps[..|steps| - 1]), steps[|steps| - 1])
  }

  function Run(s: State, steps: seq<Step>): (t: State)
    requires Shaped(s) && PossibleRun(s, steps)
    ensures Shaped(t) && |t.now| == |s.now|
    decreases |steps|, 1
  {
    if |steps| == 0 then s
    else
      var t := Run(s, steps[..|steps| - 1]);
      NextShaped(t, steps[|steps| - 1]);
      Next(t, steps[|steps| - 1])
  }

  /** The step is one of the table's. */
  predicate OfTable(step: Step) { step.Client? || step.Sweep? }

  function TableStep(step: Step): T.Step
    requires OfTable(step)
  { if step.Client? then step.step else T.Sweep(step.i) }

  function TableSteps(steps: seq<Step>): seq<T.Step> {
    if |steps| == 0 then []
    else
      var last := steps[|steps| - 1];
      TableSteps(steps[..|steps| - 1]) + if OfTable(last) then [TableStep(last)] else []
  }

  lemma TableNext(s: State, step: Step)
    requires Shaped(s) && Possible(s, step)
    ensures OfTable(step) ==> T.Possible(s.table, TableStep(step)) && Next(s, step).table == T.Next(s.table, TableStep(step))
    ensures !OfTable(step) ==> Next(s, step).table == s.table
  {
  }

  /** What the table goes through is a run of the table. */
  lemma {:induction false} Projects(s: State, steps: seq<Step>)
    requires Shaped(s) && PossibleRun(s, steps)
    ensures T.PossibleRun(s.table, TableSteps(steps)) && T.Run(s.table, TableSteps(steps)) == Run(s, steps).table
  {
    if |steps| > 0 {
      var front, last := steps[..|steps| - 1], steps[|steps| - 1];
      Projects(s, front);
      TableNext(Run(s, front), last);
      if OfTable(last) {
        T.Append(s.table, TableSteps(front), TableStep(last));
      } else {
        assert TableSteps(front) + [] == TableSteps(front);
      }
    }
  }

  predicate AlwaysRight(s: State, steps: seq<Step>)
    requires Shaped(s) && PossibleRun(s, steps)
  {
    T.Sound(Run(s, steps).table) && (|steps| > 0 ==> AlwaysRight(s, steps[..|steps| - 1]))
  }

  /** With this monitor too, the table is right all along a run if and only if no step of it
      is harmful. */
  lemma {:induction false} AlwaysRightIff(s: State, steps: seq<Step>)
    requires Shaped(s) && T.Sound(s.table) && PossibleRun(s, steps)
    ensures T.PossibleRun(s.table, TableSteps(steps))
    ensures AlwaysRight(s, steps) <==> T.AllHarmless(s.table, TableSteps(steps))
  {
    Projects(s, steps);
    T.AlwaysSoundIff(s.table, TableSteps(steps));
    RightIsSound(s, steps);
  }

  lemma {:induction false} RightIsSound(s: State, steps: seq<Step>)
    requires Shaped(s) && PossibleRun(s, steps)
    ensures T.PossibleRun(s.table, TableSteps(steps))
    ensures AlwaysRight(s, steps) <==> T.AlwaysSound(s.table, TableSteps(steps))
  {
    Projects(s, steps);
    if |steps| > 0 {
      var front, last := steps[..|steps| - 1], steps[|steps| - 1];
      RightIsSound(s, front);
      Projects(s, front);
      var a, b := TableSteps(front), TableSteps(steps);
      if OfTable(last) {
        assert b[..|b| - 1] == a;
      } else {
        assert b == a + [] == a;
        T.SoundNowIff(s.table, a);
      }
    }
  }

  // ----- when it finds a beating heart dead -----

  /** The holder of slot i is a client whose heart beats. */
  predicate Beating(t: T.State, i: nat)
    requires T.Shaped(t) && i < |t.proc|
  { t.holder[i].Some? && t.holder[i].value in t.clients && t.clients[t.holder[i].value].heart }

  /** Or one that has not yet opened it. */
  predicate Opening(t: T.State, i: nat)
    requires T.Shaped(t) && i < |t.proc|
  { t.holder[i].Some? && t.holder[i].value in t.clients && t.clients[t.holder[i].value].phase == T.Opening }

  predicate Of(x: Option<Seen>, time: nat) { x.Some? && x.value.time == time }

  /** Slot i was open at the last copy, for the client that has it now. */
  predicate WasCopied(s: State, i: nat)
    requires Shaped(s) && i < |s.now|
  { Of(s.last[i], s.now[i].time) }

  /** And at the copy before, with the same heartbeat. */
  predicate Stalled(s: State, i: nat)
    requires Shaped(s) && i < |s.now|
  { WasCopied(s, i) && s.before[i] == s.last[i] }

  /** All times recorded are known. */
  predicate Dated(s: State, i: nat)
    requires Shaped(s) && i < |s.now|
  {
    && s.now[i].time in s.times && s.kept[i].time in s.times && s.read[i].time in s.times && 0 in s.times
    && (s.last[i].Some? ==> s.last[i].value.time in s.times && s.read[i] == s.last[i].value)
    && (s.before[i].Some? ==> s.before[i].value.time in s.times)
  }

  /** What the monitor has recorded of a slot whose holder's heart beats: nothing, if it was
      opened since the last copy; else what it remembers is what it copied then, or the time
      before if it has not yet looked. */
  predicate Watched(s: State, i: nat)
    requires Shaped(s) && i < |s.now|
  {
    var time := s.now[i].time;
    && (Opening(s.table, i) ==>
          s.kept[i].time != time && s.read[i].time != time && !Of(s.last[i], time) && !Of(s.before[i], time))
    && (Beating(s.table, i) && s.table.proc[i].open ==>
          && (s.kept[i].time == time || s.read[i].time == time || Of(s.before[i], time) ==> WasCopied(s, i))
          && (i < s.next && s.read[i].time == time ==> s.kept[i] == s.read[i])
          && (i >= s.next && (s.kept[i].time == time || Of(s.before[i], time)) ==> s.before[i] == Some(s.kept[i])))
    && (s.doomed == Some(i) && Beating(s.table, i) && WasCopied(s, i) ==> Stalled(s, i))
  }

  predicate Inv(s: State) {
    Shaped(s) && T.Sound(s.table) && forall i :: 0 <= i < |s.now| ==> Dated(s, i) && Watched(s, i)
  }

  /** Every client has a time of its own. */
  predicate Fresh(s: State, step: Step) { step.Client? && step.step.Claim? ==> step.time !in s.times }

  predicate Harmless(s: State, step: Step)
    requires Shaped(s) && Possible(s, step)
  {
    TableNext(s, step);
    OfTable(step) ==> T.Harmless(s.table, TableStep(step))
  }

  /** A client's step makes no heart beat but that of a client which opens its slot. */
  lemma BeatingBefore(t: T.State, x: T.Step, i: nat)
    requires T.Sound(t) && T.Possible(t, x) && T.Harmless(t, x) && i < |t.proc| && T.Shaped(T.Next(t, x)) && !x.Sweep?
    requires |T.Next(t, x).proc| == |t.proc|
    ensures var u := T.Next(t, x);
      && (Beating(u, i) ==> Opening(t, i) || (Beating(t, i) && (u.proc[i].open ==> t.proc[i].open)))
      && (Beating(u, i) || Opening(u, i) ==> !(x.Release? && t.clients[x.c].slot == i))
      && (Opening(u, i) ==> Opening(t, i) || (x.Claim? && i == T.FirstFree(t.proc)))
      && (Beating(u, i) ==> !(x.Claim? && i == T.FirstFree(t.proc)))
  {
    assert T.Holds(t, i);
    if x.Claim? {
      assert T.Free(t.proc, T.FirstFree(t.proc)) && T.Holds(t, T.FirstFree(t.proc));
    } else {
      assert T.Holds(t, t.clients[x.c].slot);
      assert T.Known(t, x.c);
    }
  }

  lemma ClientKeepsWatch(s: State, x: T.Step, time: nat, i: nat)
    requires Inv(s) && Possible(s, Client(x, time)) && T.Harmless(s.table, x) && Fresh(s, Client(x, time)) && i < |s.now|
    requires Shaped(AfterClient(s, x, time)) && |AfterClient(s, x, time).now| == |s.now|
    ensures Dated(AfterClient(s, x, time), i) && Watched(AfterClient(s, x, time), i)
  {
    BeatingBefore(s.table, x, i);
    assert Dated(s, i) && Watched(s, i);
  }

  lemma CopyKeepsWatch(s: State, i: nat)
    requires Inv(s) && Possible(s, Copy) && i < |s.now|
    ensures Shaped(Copied(s)) && Dated(Copied(s), i) && Watched(Copied(s), i)
  {
    assert Dated(s, i) && Watched(s, i) && T.Holds(s.table, i);
  }

  lemma LookKeepsWatch(s: State, i: nat)
    requires Inv(s) && Possible(s, Look) && i < |s.now|
    ensures Shaped(Looked(s)) && Dated(Looked(s), i) && Watched(Looked(s), i)
  {
    assert Dated(s, i) && Watched(s, i) && T.Holds(s.table, i);
  }

  lemma SweepKeepsWatch(s: State, j: nat, i: nat)
    requires Inv(s) && Possible(s, Sweep(j)) && i < |s.now| && T.Shaped(T.Next(s.table, T.Sweep(j)))
    requires |T.Next(s.table, T.Sweep(j)).proc| == |s.now|
    ensures Shaped(Next(s, Sweep(j))) && Dated(Next(s, Sweep(j)), i) && Watched(Next(s, Sweep(j)), i)
  {
    assert Dated(s, i) && Watched(s, i) && Dated(s, j);
  }

  lemma StepKeepsInv(s: State, step: Step)
    requires Inv(s) && Possible(s, step) && Harmless(s, step) && Fresh(s, step)
    ensures Inv(Next(s, step))
  {
    NextShaped(s, step);
    TableNext(s, step);
    if OfTable(step) { T.StepKeepsSoundIff(s.table, TableStep(step)); }
    forall i | 0 <= i < |s.now| ensures Dated(Next(s, step), i) && Watched(Next(s, step), i) {
      match step
      case Client(x, time) => ClientKeepsWatch(s, x, time, i);
      case Beat(c) => assert Dated(s, i) && Watched(s, i);
      case Copy => CopyKeepsWatch(s, i);
      case Look => LookKeepsWatch(s, i);
      case Sweep(j) => SweepKeepsWatch(s, j, i);
    }
  }

  /** It finds a beating heart dead if and only if that had the same heartbeat at two copies on
      end, or its slot was opened since the last copy and nothing else was new then. */
  lemma LookDoomsIff(s: State)
    requires Inv(s) && Possible(s, Look) && s.table.proc[s.next].open && Beating(s.table, s.next)
    ensures Next(s, Look).doomed == Some(s.next) <==>
      if WasCopied(s, s.next) then Stalled(s, s.next) else s.kept[s.next] == s.read[s.next]
  {
    assert Dated(s, s.next) && Watched(s, s.next);
  }

  /** It takes the slot of one only then, or when it had found the slot dead before that was
      opened. */
  lemma SweptBeating(s: State, i: nat)
    requires Inv(s) && Possible(s, Sweep(i)) && Beating(s.table, i)
    ensures !WasCopied(s, i) || Stalled(s, i)
  {
    assert Watched(s, i);
  }

  /** An open slot whose heartbeat does not change is found dead in the second round at the
      latest, whoever's it is. */
  lemma SilentIsFound(s: State)
    requires Shaped(s) && |s.now| == 1 && s.table.proc[0].open && s.next >= 1 && s.doomed == None
    ensures Shaped(Copied(s)) && Possible(Copied(s), Look)
    ensures var t := Looked(Copied(s));
      && Shaped(t) && t.table == s.table && t.now == s.now
      && (t.doomed == Some(0) || (Possible(t, Copy) && Shaped(Copied(t)) && Looked(Copied(t)).doomed == Some(0)))
  {
    var u := Copied(s);
    assert u.read[0] == s.now[0];
    var t := Looked(u);
    if t.doomed == None { assert t.kept[0] == s.now[0] && Copied(t).read[0] == s.now[0]; }
  }

  // ----- when it does not -----

  /** No client takes or opens a slot that has been found dead, or opens one that the monitor
      has still to look at in this round; and every heart beats between two copies. */
  predicate InTime(s: State, step: Step)
    requires Shaped(s) && Possible(s, step)
  {
    match step
    case Client(Claim(_), _) => s.doomed != Some(T.FirstFree(s.table.proc))
    case Client(Declare(c), _) => var i := s.table.clients[c].slot; i < s.next && s.doomed != Some(i)
    case Copy => forall i :: 0 <= i < |s.now| && s.table.proc[i].open && Beating(s.table, i) ==> s.last[i] != Some(s.now[i])
    case _ => true
  }

  /** Then a slot whose holder's heart beats was copied, if it has still to be looked at, and
      has a new heartbeat; and what is found dead is not the slot of such a client. */
  predicate Punctual(s: State, i: nat)
    requires Shaped(s) && i < |s.now|
  {
    && (Beating(s.table, i) && s.table.proc[i].open ==> (i >= s.next ==> WasCopied(s, i)) && !Stalled(s, i))
    && (s.doomed == Some(i) ==> !Beating(s.table, i) && !Opening(s.table, i))
  }

  predicate OnTime(s: State) { Inv(s) && forall i :: 0 <= i < |s.now| ==> Punctual(s, i) }

  /** What clients and monitor must see to: that no client acts on a slot taken from it, and
      that the monitor does not count while another client is halfway. */
  predicate Decent(s: State, step: Step)
    requires Shaped(s) && Possible(s, step)
  {
    && Fresh(s, step) && InTime(s, step)
    && match step
       case Client(x, _) => T.Harmless(s.table, x)
       case Sweep(i) => forall d :: d in s.table.clients && !T.Stale(s.table, d) && s.table.clients[d].slot != i ==>
         !T.Halfway(s.table.clients[d])
       case _ => true
  }

  /** A holder whose heart does not beat, and that is not opening its slot, is done with it. */
  lemma DoneIfSilent(t: T.State, d: nat)
    requires T.Sound(t) && d in t.clients && !T.Stale(t, d)
    requires !Beating(t, t.clients[d].slot) && !Opening(t, t.clients[d].slot)
    ensures T.Done(t.clients[d])
  {
    assert T.Known(t, d);
  }

  lemma DecentIsHarmless(s: State, step: Step)
    requires OnTime(s) && Possible(s, step) && Decent(s, step)
    ensures Harmless(s, step)
  {
    if step.Sweep? {
      assert Punctual(s, step.i);
      forall d | d in s.table.clients && !T.Stale(s.table, d) && s.table.clients[d].slot == step.i
        ensures T.Done(s.table.clients[d])
      {
        DoneIfSilent(s.table, d);
      }
    }
  }

  lemma ClientStaysPunctual(s: State, x: T.Step, time: nat, i: nat)
    requires OnTime(s) && Possible(s, Client(x, time)) && Decent(s, Client(x, time)) && i < |s.now|
    requires Shaped(AfterClient(s, x, time)) && |AfterClient(s, x, time).now| == |s.now|
    ensures Punctual(AfterClient(s, x, time), i)
  {
    BeatingBefore(s.table, x, i);
    assert Dated(s, i) && Watched(s, i) && Punctual(s, i) && T.Holds(s.table, i);
  }

  lemma StepStaysPunctual(s: State, step: Step, i: nat)
    requires OnTime(s) && Possible(s, step) && Decent(s, step) && i < |s.now| && Shaped(Next(s, step)) && |Next(s, step).now| == |s.now|
    ensures Punctual(Next(s, step), i)
  {
    assert Dated(s, i) && Watched(s, i) && Punctual(s, i) && T.Holds(s.table, i);
    if step.Client? { ClientStaysPunctual(s, step.step, step.time, i); }
  }

  lemma StepStaysOnTime(s: State, step: Step)
    requires OnTime(s) && Possible(s, step) && Decent(s, step)
    ensures OnTime(Next(s, step))
  {
    NextShaped(s, step);
    DecentIsHarmless(s, step);
    StepKeepsInv(s, step);
    forall i | 0 <= i < |s.now| ensures Punctual(Next(s, step), i) { StepStaysPunctual(s, step, i); }
  }

  predicate AllDecent(s: State, steps: seq<Step>)
    requires Shaped(s) && PossibleRun(s, steps)
  {
    |steps| > 0 ==>
      AllDecent(s, steps[..|steps| - 1]) && Decent(Run(s, steps[..|steps| - 1]), steps[|steps| - 1])
  }

  /** A system just started. What newheartbt[] and newTime[] hold then is anything. */
  function Started(n: nat, junk: seq<Seen>): State
    requires |junk| == n
  {
    State(T.Started(n), seq(n, i => Seen(0, 0)), seq(n, i => Seen(HBMODULO, 0)), junk, n, None,
          seq(n, i => None), seq(n, i => None), {0} + set i | 0 <= i < n :: junk[i].time)
  }

  lemma StartedOnTime(n: nat, junk: seq<Seen>)
    requires |junk| == n
    ensures OnTime(Started(n, junk))
  {
    T.StartedSound(n);
  }

  /** So from the start on the table is right, and the monitor takes no slot but of a client that
      has died or is closing, as long as nobody is late. */
  lemma {:induction false} StaysRight(n: nat, junk: seq<Seen>, steps: seq<Step>)
    requires |junk| == n && Shaped(Started(n, junk)) && PossibleRun(Started(n, junk), steps) && AllDecent(Started(n, junk), steps)
    ensures AlwaysRight(Started(n, junk), steps) && OnTime(Run(Started(n, junk), steps))
  {
    if |steps| == 0 {
      StartedOnTime(n, junk);
    } else {
      StaysRight(n, junk, steps[..|steps| - 1]);
      StepStaysOnTime(Run(Started(n, junk), steps[..|steps| - 1]), steps[|steps| - 1]);
    }
  }

  // ----- a client that died halfway -----

  lemma DeadHalfwayStep(s: State, step: Step, c: nat)
    requires Shaped(s) && T.Sound(s.table) && Possible(s, step) && Shaped(Next(s, step)) && T.Sound(Next(s, step).table)
    requires c in s.table.clients && !T.Stale(s.table, c) && s.table.clients[c].dead && T.Halfway(s.table.clients[c])
    requires s.doomed != Some(s.table.clients[c].slot)
    ensures T.Same(s.table, Next(s, step).table, c) && !step.Sweep?
    ensures Next(s, step).doomed != Some(s.table.clients[c].slot)
  {
    TableNext(s, step);
    assert T.Holds(s.table, s.table.clients[c].slot);
    if OfTable(step) {
      T.StepKeepsSoundIff(s.table, TableStep(step));
      T.OthersLeaveMine(s.table, TableStep(step), c);
    }
  }

  /** A client that has died halfway through a call is not found by the monitor any more, since
      the status of its slot is not open; and as long as the table stays right it is, no other
      client is cleaned up either. */
  lemma {:induction false} DeadHalfwayStays(s: State, steps: seq<Step>, c: nat)
    requires Shaped(s) && PossibleRun(s, steps) && AlwaysRight(s, steps)
    requires c in s.table.clients && !T.Stale(s.table, c) && s.table.clients[c].dead && T.Halfway(s.table.clients[c])
    requires s.doomed != Some(s.table.clients[c].slot)
    ensures T.Same(s.table, Run(s, steps).table, c) && Run(s, steps).doomed != Some(s.table.clients[c].slot)
    ensures forall step :: step in steps ==> !step.Sweep?
  {
    if |steps| > 0 {
      var front, last := steps[..|steps| - 1], steps[|steps| - 1];
      DeadHalfwayStays(s, front, c);
      assert AlwaysRight(s, front);
      DeadHalfwayStep(Run(s, front), last, c);
      assert steps == front + [last];
    }
  }

  // ----- when it does -----

  /** A step that is possible, and where it leads; and a run along which the table is right.
      They are unfolded only where they are named. */
  ghost predicate Leads(s: State, step: Step, t: State) {
    forall x {:trigger Named([x])} :: Named([x]) && x == step ==> Shaped(s) && Possible(s, x) && Next(s, x) == t
  }

  ghost predicate Reaches(s: State, steps: seq<Step>, t: State) {
    forall x {:trigger Named(x)} :: Named(x) && x == steps ==> Shaped(s) && PossibleRun(s, x) && Run(s, x) == t && AlwaysRight(s, x)
  }

  predicate Named(steps: seq<Step>) { true }

  lemma LeadsOn(s: State, steps: seq<Step>, t: State, step: Step, u: State) returns (more: seq<Step>)
    requires Reaches(s, steps, t) && Leads(t, step, u) && T.Sound(u.table)
    ensures Reaches(s, more, u) && more == steps + [step]
  {
    assert Named([step]) && Named(steps);
    more := steps + [step];
    assert more[..|more| - 1] == steps;
  }

  /** A system of one slot. */
  function Only(slot: T.Slot, nprocesses: int, clients: map<nat, T.Client>, holder: Option<nat>): T.State {
    T.State([slot], nprocesses, clients, [holder])
  }

  function At(table: T.State, now: Seen, kept: Seen, read: Seen, next: nat, last: Option<Seen>, before: Option<Seen>, times: set<nat>): State {
    State(table, [now], [kept], [read], next, None, [last], [before], times)
  }

  const CLOSED := T.Slot(0, false, {})
  const OPEN := T.Slot(0, true, {})
  const ZERO := Seen(0, 0)
  const FIRST := Seen(0, 1)
  const SECOND := Seen(0, 2)
  const START := At(Only(T.BLANK, 0, map[], None), ZERO, Seen(HBMODULO, 0), ZERO, 1, None, None, {0})

  lemma OneTaken(slot: T.Slot, phase: T.Phase, heart: bool)
    requires slot.num == 0 && (slot.open <==> phase != T.Opening && phase != T.Shutting)
    requires heart ==> phase != T.Quiet && phase != T.Refused && phase != T.Opening
    requires phase == T.Running ==> heart
    ensures T.Sound(Holding(slot, phase, heart)) && T.Sound(NextHolding(slot, phase, heart))
  {
    assert [slot][..0] == [] && T.Occupied([slot]) == 1;
    assert T.Holds(Holding(slot, phase, heart), 0) && T.Holds(NextHolding(slot, phase, heart), 0);
  }

  lemma NoneTaken()
    ensures T.Sound(Only(T.BLANK, 0, map[], None))
  {
    assert [T.BLANK][..0] == [] && T.Occupied([T.BLANK]) == 0;
    assert T.Holds(Only(T.BLANK, 0, map[], None), 0);
  }

  function Holding(slot: T.Slot, phase: T.Phase, heart: bool): T.State {
    Only(slot, 1, map[0 := T.Client(0, phase, heart, false)], Some(0))
  }

  function NextHolding(slot: T.Slot, phase: T.Phase, heart: bool): T.State {
    Only(slot, 1, map[1 := T.Client(0, phase, heart, false)], Some(1))
  }

  /** Client 0 takes and opens the slot, and the monitor has its first round. */
  const OPENED := At(Holding(OPEN, T.Running, true), FIRST, Seen(HBMODULO, 0), ZERO, 1, None, None, {0, 1})
  const SEEN := At(Holding(OPEN, T.Running, true), FIRST, FIRST, FIRST, 1, Some(FIRST), None, {0, 1})

  lemma Opens()
    ensures START == Started(1, [ZERO]) && T.Sound(START.table)
    ensures T.Sound(Holding(CLOSED, T.Opening, false)) && T.Sound(OPENED.table) && T.Sound(SEEN.table)
    ensures Leads(START, Client(T.Claim(0), 1), OPENED.(table := Holding(CLOSED, T.Opening, false)))
    ensures Leads(OPENED.(table := Holding(CLOSED, T.Opening, false)), Client(T.Declare(0), 0), OPENED)
  {
    assert T.FirstFree([T.BLANK]) == 0 && [T.BLANK][0 := CLOSED] == [CLOSED] && [None][0 := Some(0)] == [Some(0)];
    assert [ZERO][0 := FIRST] == [FIRST] && {0} + {1} == {0, 1} && [CLOSED][0 := OPEN] == [OPEN];
    NoneTaken();
    OneTaken(CLOSED, T.Opening, false);
    OneTaken(OPEN, T.Running, true);
    assert START == Started(1, [ZERO]) by { assert START.times == Started(1, [ZERO]).times; }
  }

  lemma FirstRound()
    ensures Leads(OPENED, Copy, SEEN.(kept := [Seen(HBMODULO, 0)], next := 0))
    ensures Leads(SEEN.(kept := [Seen(HBMODULO, 0)], next := 0), Look, SEEN)
  {
    var t := Copied(OPENED);
    assert t.read == [FIRST] && t.last == [Some(FIRST)] && t.before == [None];
    assert [Seen(HBMODULO, 0)][0 := FIRST] == [FIRST];
  }

  /** While it closes the monitor copies nothing. */
  function Closing(table: T.State): State { At(table, FIRST, FIRST, FIRST, 0, None, Some(FIRST), {0, 1}) }

  lemma BeginsToClose()
    ensures Leads(SEEN, Client(T.BeginClose(0), 0), SEEN.(table := Holding(CLOSED, T.Shutting, true)))
    ensures Leads(SEEN.(table := Holding(CLOSED, T.Shutting, true)), Copy, Closing(Holding(CLOSED, T.Shutting, true)))
    ensures T.Sound(Holding(CLOSED, T.Shutting, true))
  {
    OneTaken(CLOSED, T.Shutting, true);
    assert [OPEN][0 := CLOSED] == [CLOSED];
    var t := Copied(SEEN.(table := Holding(CLOSED, T.Shutting, true)));
    assert t.read == [FIRST] && t.last == [None] && t.before == [Some(FIRST)];
  }

  lemma StopsItsHeart()
    ensures Leads(Closing(Holding(CLOSED, T.Shutting, true)), Client(T.StopHeart(0), 0), Closing(Holding(OPEN, T.Quiet, false)))
    ensures T.Sound(Holding(OPEN, T.Quiet, false))
  {
    OneTaken(OPEN, T.Quiet, false);
    assert [CLOSED][0 := OPEN] == [OPEN];
  }

  lemma IsNotRefused()
    ensures Leads(Closing(Holding(OPEN, T.Quiet, false)), Client(T.Test(0, true), 0), Closing(Holding(OPEN, T.Leaving, false)))
    ensures T.Sound(Holding(OPEN, T.Leaving, false))
  {
    OneTaken(OPEN, T.Leaving, false);
  }

  /** Client 1 takes and opens the slot before the monitor looks. */
  const FREED := At(Only(T.BLANK, 0, map[], None), ZERO, FIRST, FIRST, 0, None, Some(FIRST), {0, 1})
  const LATE := At(NextHolding(OPEN, T.Running, true), SECOND, FIRST, FIRST, 0, None, Some(FIRST), {0, 1, 2})

  lemma Goes()
    ensures Leads(Closing(Holding(OPEN, T.Leaving, false)), Client(T.Release(0), 0), FREED) && T.Sound(FREED.table)
  {
    NoneTaken();
    assert map[0 := T.Client(0, T.Leaving, false, false)] - {0} == map[];
    assert [OPEN][0 := T.BLANK] == [T.BLANK] && [Some(0)][0 := None] == [None] && [FIRST][0 := ZERO] == [ZERO];
  }

  lemma AnotherTakesIt()
    ensures Leads(FREED, Client(T.Claim(1), 2), LATE.(table := NextHolding(CLOSED, T.Opening, false)))
    ensures T.Sound(NextHolding(CLOSED, T.Opening, false))
  {
    OneTaken(CLOSED, T.Opening, false);
    assert T.FirstFree([T.BLANK]) == 0 && [T.BLANK][0 := CLOSED] == [CLOSED] && [None][0 := Some(1)] == [Some(1)];
    assert [ZERO][0 := SECOND] == [SECOND] && {0, 1} + {2} == {0, 1, 2};
  }

  lemma AndOpensIt()
    ensures Leads(LATE.(table := NextHolding(CLOSED, T.Opening, false)), Client(T.Declare(1), 0), LATE) && T.Sound(LATE.table)
  {
    OneTaken(OPEN, T.Running, true);
    assert [CLOSED][0 := OPEN] == [OPEN];
    assert map[1 := T.Client(0, T.Opening, false, false)][1 := T.Client(0, T.Running, true, false)]
        == map[1 := T.Client(0, T.Running, true, false)];
  }

  /** It finds what it remembers, of client 0. */
  const DOOMED := LATE.(next := 1, doomed := Some(0))
  const SWEPT := At(Only(T.BLANK, 0, map[1 := T.Client(0, T.Running, true, false)], None), ZERO, FIRST, FIRST, 1, None, Some(FIRST), {0, 1, 2})

  lemma FoundDead()
    ensures Leads(LATE, Look, DOOMED) && Leads(DOOMED, Sweep(0), SWEPT)
    ensures T.Sound(DOOMED.table) && Beating(DOOMED.table, 0) && !WasCopied(DOOMED, 0) && !T.Sound(SWEPT.table)
  {
    assert [OPEN][0 := T.BLANK] == [T.BLANK] && T.Opened([T.BLANK]) == 0 && [Some(1)][0 := None] == [None];
    assert [SECOND][0 := ZERO] == [ZERO] && [FIRST][0 := FIRST] == [FIRST];
    OneTaken(OPEN, T.Running, true);
    assert !T.Known(SWEPT.table, 1);
  }

  /** A run along which the table is right, since no client does anything harmful, until it ends
      with the monitor's taking the slot of a client whose heart beats. */
  lemma SweptWhileBeating() returns (steps: seq<Step>)
    ensures Shaped(Started(1, [ZERO])) && PossibleRun(Started(1, [ZERO]), steps) && |steps| > 0
    ensures Run(Started(1, [ZERO]), steps) == SWEPT && !T.Sound(SWEPT.table)
    ensures steps[|steps| - 1] == Sweep(0) && Run(Started(1, [ZERO]), steps[..|steps| - 1]) == DOOMED
    ensures AlwaysRight(Started(1, [ZERO]), steps[..|steps| - 1]) && Beating(DOOMED.table, 0) && !WasCopied(DOOMED, 0)
  {
    Opens();
    steps := LeadsOn(START, [], START, Client(T.Claim(0), 1), OPENED.(table := Holding(CLOSED, T.Opening, false)));
    steps := LeadsOn(START, steps, OPENED.(table := Holding(CLOSED, T.Opening, false)), Client(T.Declare(0), 0), OPENED);
    FirstRound();
    steps := LeadsOn(START, steps, OPENED, Copy, SEEN.(kept := [Seen(HBMODULO, 0)], next := 0));
    steps := LeadsOn(START, steps, SEEN.(kept := [Seen(HBMODULO, 0)], next := 0), Look, SEEN);
    steps := SlotChangesHands(steps);
    FoundDead();
    steps := LeadsOn(START, steps, LATE, Look, DOOMED);
    assert Named(steps) && Named([Sweep(0)]);
    var most := steps;
    steps := most + [Sweep(0)];
    assert steps[..|steps| - 1] == most;
  }

  lemma SlotChangesHands(before: seq<Step>) returns (steps: seq<Step>)
    requires Reaches(START, before, SEEN)
    ensures Reaches(START, steps, LATE)
  {
    BeginsToClose();
    StopsItsHeart();
    IsNotRefused();
    steps := LeadsOn(START, before, SEEN, Client(T.BeginClose(0), 0), SEEN.(table := Holding(CLOSED, T.Shutting, true)));
    steps := LeadsOn(START, steps, SEEN.(table := Holding(CLOSED, T.Shutting, true)), Copy, Closing(Holding(CLOSED, T.Shutting, true)));
    steps := LeadsOn(START, steps, Closing(Holding(CLOSED, T.Shutting, true)), Client(T.StopHeart(0), 0), Closing(Holding(OPEN, T.Quiet, false)));
    steps := LeadsOn(START, steps, Closing(Holding(OPEN, T.Quiet, false)), Client(T.Test(0, true), 0), Closing(Holding(OPEN, T.Leaving, false)));
    Goes();
    AnotherTakesIt();
    AndOpensIt();
    steps := LeadsOn(START, steps, Closing(Holding(OPEN, T.Leaving, false)), Client(T.Release(0), 0), FREED);
    steps := LeadsOn(START, steps, FREED, Client(T.Claim(1), 2), LATE.(table := NextHolding(CLOSED, T.Opening, false)));
    steps := LeadsOn(START, steps, LATE.(table := NextHolding(CLOSED, T.Opening, false)), Client(T.Declare(1), 0), LATE);
  }
}
