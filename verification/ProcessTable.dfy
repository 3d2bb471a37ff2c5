/** The table of client processes in an ET system (et_local.c, et_system.c).

    Clients open and close the system at any time. What they do to the table they do
    under the system's lock, one piece at a time, and other clients may get in between
    the pieces of one call. So may the system's heart monitor, which takes the slot of a
    client whose heart it believes to have stopped. Here it may take any slot at any time;
    the module HeartMonitor says when it does. */
module ProcessTable {
  import opened Options

  datatype Status = OK | ERROR | CLOSED

  /** proc[i]: `open` is status ET_PROC_OPEN, `att` the attachments in att[]. */
  datatype Slot = Slot(num: int, open: bool, att: set<nat>)

  /** What et_init_process leaves. */
  const BLANK := Slot(-1, false, {})

  /** How far a client is with its calls. */
  datatype Phase =
    | Opening    // has a slot, is starting its threads
    | Running    // open
    | Shutting   // in et_close: status is closed, the threads are being stopped
    | Quiet      // in et_close: threads stopped, status open again
    | Refused    // its close was refused
    | Leaving    // in et_close or et_kill: about to give the slot back

  /** A client: its slot, how far it is, whether its heart beats, whether it is dead. */
  datatype Client = Client(slot: nat, phase: Phase, heart: bool, dead: bool)

  /** Whether et_close or et_kill has set `closed` in the client's id. */
  predicate Closed(client: Client) { !client.phase.Opening? && !client.phase.Running? }

  /** `holder[i]` tells whose claim on slot i has been ended neither by itself nor by the
      monitor; the program keeps no such record. */
  datatype State = State(proc: seq<Slot>, nprocesses: int, clients: map<nat, Client>, holder: seq<Option<nat>>)

  datatype Step =
    | Claim(c: nat)                // et_open takes the first free slot
    | Declare(c: nat)              // and, its heart beating, says so
    | Attach(c: nat, e: nat)
    | Detach(c: nat, e: nat)
    | BeginClose(c: nat)
    | StopHeart(c: nat)
    | Test(c: nat, alive: bool)    // a living system refuses a client that is attached
    | BeginKill(c: nat)
    | Release(c: nat)              // nprocesses-- and et_init_process under the lock
    | Die(c: nat)                  // the client's process ends, wherever it is
    | Sweep(i: nat)                // the monitor takes slot i

  predicate By(step: Step, c: nat) { !step.Sweep? && step.c == c }

  function Occupied(proc: seq<Slot>): nat {
    if |proc| == 0 then 0
    else Occupied(proc[..|proc| - 1]) + if proc[|proc| - 1].num == -1 then 0 else 1
  }

  function Opened(proc: seq<Slot>): nat {
    if |proc| == 0 then 0
    else Opened(proc[..|proc| - 1]) + if proc[|proc| - 1].open then 1 else 0
  }

  predicate Free(proc: seq<Slot>, i: nat) { i < |proc| && proc[i].num == -1 }

  /** The slot et_open finds. */
  predicate First(proc: seq<Slot>, i: nat) { Free(proc, i) && forall j: nat :: j < i ==> !Free(proc, j) }

  function FirstFree(proc: seq<Slot>): (i: nat)
    ensures i <= |proc| && (i < |proc| ==> First(proc, i)) && forall j: nat :: j < i ==> !Free(proc, j)
  {
    if |proc| == 0 then 0
    else
      var i := FirstFree(proc[..|proc| - 1]);
      assert forall j: nat :: j < |proc| - 1 ==> Free(proc, j) == Free(proc[..|proc| - 1], j);
      if i < |proc| - 1 || Free(proc, i) then i else |proc|
  }

  predicate Shaped(s: State) {
    |s.holder| == |s.proc| && forall c :: c in s.clients ==> s.clients[c].slot < |s.proc|
  }

  predicate At(s: State, c: nat, phase: Phase) {
    c in s.clients && !s.clients[c].dead && s.clients[c].phase == phase
  }

  predicate Possible(s: State, step: Step) {
    match step
    case Claim(c) => c !in s.clients && FirstFree(s.proc) < |s.proc|
    case Declare(c) => At(s, c, Opening)
    case Attach(c, _) => At(s, c, Running)
    case Detach(c, _) => At(s, c, Running)
    case BeginClose(c) => At(s, c, Running) || At(s, c, Refused)
    case StopHeart(c) => At(s, c, Shutting)
    case Test(c, _) => At(s, c, Quiet)
    case BeginKill(c) => At(s, c, Running) || At(s, c, Refused)
    case Release(c) => At(s, c, Opening) || At(s, c, Leaving)
    case Die(c) => c in s.clients && !s.clients[c].dead
    case Sweep(i) => i < |s.proc|
  }

  function Put(s: State, c: nat, client: Client): State { s.(clients := s.clients[c := client]) }

  function SetOpen(s: State, i: nat, open: bool): State
    requires i < |s.proc|
  { s.(proc := s.proc[i := s.proc[i].(open := open)]) }

  function Next(s: State, step: Step): State
    requires Shaped(s) && Possible(s, step)
  {
    match step
    case Claim(c) =>
      var i := FirstFree(s.proc);
      State(s.proc[i := s.proc[i].(num := i)], s.nprocesses + 1,
            s.clients[c := Client(i, Opening, false, false)], s.holder[i := Some(c)])
    case Declare(c) => SetOpen(Put(s, c, s.clients[c].(phase := Running, heart := true)), s.clients[c].slot, true)
    case Attach(c, e) => SetAtt(s, s.clients[c].slot, s.proc[s.clients[c].slot].att + {e})
    case Detach(c, e) => SetAtt(s, s.clients[c].slot, s.proc[s.clients[c].slot].att - {e})
    case BeginClose(c) => SetOpen(Put(s, c, s.clients[c].(phase := Shutting)), s.clients[c].slot, false)
    case StopHeart(c) => SetOpen(Put(s, c, s.clients[c].(phase := Quiet, heart := false)), s.clients[c].slot, true)
    case Test(c, alive) =>
      Put(s, c, s.clients[c].(phase := if alive && s.proc[s.clients[c].slot].att != {} then Refused else Leaving))
    case BeginKill(c) => Put(s, c, s.clients[c].(phase := Leaving))
    case Release(c) => Released(s, c)
    case Die(c) => Put(s, c, s.clients[c].(heart := false, dead := true))
    case Sweep(i) => Swept(s, i)
  }

  function SetAtt(s: State, i: nat, att: set<nat>): State
    requires i < |s.proc|
  { s.(proc := s.proc[i := s.proc[i].(att := att)]) }

  function Released(s: State, c: nat): State
    requires Shaped(s) && c in s.clients
  {
    var i := s.clients[c].slot;
    State(s.proc[i := BLANK], s.nprocesses - 1, s.clients - {c},
          if s.holder[i] == Some(c) then s.holder[i := None] else s.holder)
  }

  /** The slot is initialised, and et_fix_nprocs counts the slots whose status is open. */
  function Swept(s: State, i: nat): State
    requires Shaped(s) && i < |s.proc|
  {
    var proc := s.proc[i := BLANK];
    State(proc, Opened(proc), s.clients, s.holder[i := None])
  }

  lemma NextShaped(s: State, step: Step)
    requires Shaped(s) && Possible(s, step)
    ensures Shaped(Next(s, step)) && |Next(s, step).proc| == |s.proc|
  {
  }

  // ----- when the table is right -----

  /** A client whose slot the monitor took. */
  predicate Stale(s: State, c: nat)
    requires Shaped(s) && c in s.clients
  { s.holder[s.clients[c].slot] != Some(c) }

  /** Between the two places where a call sets the status of its slot. */
  predicate Halfway(client: Client) { client.phase == Opening || client.phase == Shutting }

  predicate Holds(s: State, i: nat)
    requires i < |s.proc| == |s.holder|
  {
    match s.holder[i]
    case None => s.proc[i].num == -1 && !s.proc[i].open
    case Some(c) =>
      && s.proc[i].num == i && c in s.clients && s.clients[c].slot == i
      && (s.proc[i].open <==> !Halfway(s.clients[c]))
  }

  predicate Known(s: State, c: nat)
    requires Shaped(s) && c in s.clients
  {
    && (s.clients[c].heart ==> !s.clients[c].dead && !s.clients[c].phase.Quiet? && !s.clients[c].phase.Refused?)
    && (Stale(s, c) ==> !s.clients[c].heart && (s.clients[c].dead || Closed(s.clients[c])))
    && (s.clients[c].phase == Running && !s.clients[c].dead ==> s.clients[c].heart)
  }

  /** Slots and the clients that hold them belong to each other one to one, a slot's status
      is what its holder last set, and nprocesses is the number of slots taken. */
  predicate Sound(s: State) {
    && Shaped(s) && s.nprocesses == Occupied(s.proc)
    && (forall i :: 0 <= i < |s.proc| ==> Holds(s, i))
    && (forall c :: c in s.clients ==> Known(s, c))
  }

  /** A client that will not use its slot any more but to give it back. */
  predicate Done(client: Client) { client.dead || (Closed(client) && !client.heart) }

  /** What must not happen: that a client acts on a slot taken from it, that the monitor takes
      the slot of a client that is not done, or that it counts while another is halfway. */
  predicate Harmless(s: State, step: Step)
    requires Shaped(s) && Possible(s, step)
  {
    match step
    case BeginClose(c) => !Stale(s, c) || !s.proc[s.clients[c].slot].open
    case StopHeart(c) => !Stale(s, c) || s.proc[s.clients[c].slot].open
    case Release(c) => !Stale(s, c)
    case Sweep(i) => forall d :: d in s.clients && !Stale(s, d) ==>
      if s.clients[d].slot == i then Done(s.clients[d]) else !Halfway(s.clients[d])
    case _ => true
  }

  /** The number of taken slots after one slot changes. */
  lemma {:induction false} OccupiedUpdate(proc: seq<Slot>, i: nat, p: Slot)
    requires i < |proc|
    ensures Occupied(proc[i := p]) ==
      Occupied(proc) + (if p.num == -1 then 0 else 1) - (if proc[i].num == -1 then 0 else 1)
  {
    var changed := proc[i := p];
    if i == |proc| - 1 {
      assert changed[..i] == proc[..i];
    } else {
      OccupiedUpdate(proc[..|proc| - 1], i, p);
      assert changed[..|proc| - 1] == proc[..|proc| - 1][i := p];
    }
  }

  /** If only taken slots are open, counting the open ones counts the taken ones exactly
      when all of those are open. */
  lemma {:induction false} OpenedIsOccupiedIff(proc: seq<Slot>)
    requires forall i :: 0 <= i < |proc| && proc[i].open ==> proc[i].num != -1
    ensures Opened(proc) <= Occupied(proc)
    ensures Opened(proc) == Occupied(proc) <==> forall i :: 0 <= i < |proc| && proc[i].num != -1 ==> proc[i].open
  {
    if |proc| > 0 {
      var rest := proc[..|proc| - 1];
      OpenedIsOccupiedIff(rest);
      assert forall i :: 0 <= i < |rest| ==> rest[i] == proc[i];
    }
  }

  lemma {:induction false} FullTable(proc: seq<Slot>)
    ensures Occupied(proc) <= |proc|
    ensures Occupied(proc) == |proc| <==> FirstFree(proc) == |proc|
  {
    if |proc| > 0 {
      var rest := proc[..|proc| - 1];
      FullTable(rest);
      assert forall j: nat :: j < |rest| ==> Free(proc, j) == Free(rest, j);
      if FirstFree(rest) < |rest| { assert Free(proc, FirstFree(rest)); }
    }
  }

  lemma SlotsStaySound(s: State, step: Step)
    requires Sound(s) && Possible(s, step) && Harmless(s, step)
    ensures forall i :: 0 <= i < |s.proc| ==> Holds(Next(s, step), i)
  {
    NextShaped(s, step);
    var t := Next(s, step);
    forall i | 0 <= i < |s.proc| ensures Holds(t, i) {
      assert Holds(s, i);
      match step
      case Claim(c) =>
      case Declare(c) =>
      case Attach(c, e) =>
      case Detach(c, e) =>
      case BeginClose(c) =>
      case StopHeart(c) =>
      case Test(c, alive) =>
      case BeginKill(c) =>
      case Release(c) =>
      case Die(c) =>
      case Sweep(j) =>
    }
  }

  lemma ClientsStayKnown(s: State, step: Step)
    requires Sound(s) && Possible(s, step) && Harmless(s, step)
    ensures forall c :: c in Next(s, step).clients ==> Known(Next(s, step), c)
  {
    NextShaped(s, step);
    var t := Next(s, step);
    forall c | c in t.clients ensures Known(t, c) {
      if c in s.clients {
        assert Known(s, c) && Holds(s, s.clients[c].slot);
      }
    }
  }

  lemma CountStaysSound(s: State, step: Step)
    requires Sound(s) && Possible(s, step) && Harmless(s, step)
    ensures Next(s, step).nprocesses == Occupied(Next(s, step).proc)
  {
    NextShaped(s, step);
    var t := Next(s, step);
    if step.Sweep? {
      forall j | 0 <= j < |t.proc| ensures t.proc[j].open <==> t.proc[j].num != -1 {
        assert Holds(s, j);
        if j != step.i && s.holder[j].Some? { assert !Stale(s, s.holder[j].value); }
      }
      OpenedIsOccupiedIff(t.proc);
    } else if step.Claim? {
      OccupiedUpdate(s.proc, FirstFree(s.proc), t.proc[FirstFree(s.proc)]);
    } else if !step.Die? && !step.Test? && !step.BeginKill? {
      var i := s.clients[step.c].slot;
      assert Holds(s, i);
      OccupiedUpdate(s.proc, i, t.proc[i]);
    }
  }

  lemma HarmBreaks(s: State, step: Step)
    requires Sound(s) && Possible(s, step) && !Harmless(s, step)
    ensures !Sound(Next(s, step))
  {
    NextShaped(s, step);
    var t := Next(s, step);
    if step.Sweep? {
      var d :| d in s.clients && !Stale(s, d) &&
        !(if s.clients[d].slot == step.i then Done(s.clients[d]) else !Halfway(s.clients[d]));
      var j := s.clients[d].slot;
      assert Holds(s, j) && Known(s, d);
      if j == step.i {
        assert !Known(t, d);
      } else {
        assert t.proc[j].num != -1 && !t.proc[j].open;
        forall i | 0 <= i < |t.proc| && t.proc[i].open ensures t.proc[i].num != -1 { assert Holds(s, i); }
        OpenedIsOccupiedIff(t.proc);
      }
    } else {
      var i := s.clients[step.c].slot;
      assert Holds(s, i);
      if Sound(t) { assert Holds(t, i); }
      OccupiedUpdate(s.proc, i, t.proc[i]);
    }
  }

  /** A step keeps the table right if and only if it is harmless. */
  lemma StepKeepsSoundIff(s: State, step: Step)
    requires Sound(s) && Possible(s, step)
    ensures Sound(Next(s, step)) <==> Harmless(s, step)
  {
    if Harmless(s, step) {
      NextShaped(s, step);
      SlotsStaySound(s, step);
      ClientsStayKnown(s, step);
      CountStaysSound(s, step);
    } else {
      HarmBreaks(s, step);
    }
  }

  // ----- runs -----

  predicate PossibleRun(s: State, steps: seq<Step>)
    requires Shaped(s)
    decreases |steps|, 0
  {
    |steps| > 0 ==>
      PossibleRun(s, steps[..|steps| - 1]) && Possible(Run(s, steps[..|steps| - 1]), steps[|steps| - 1])
  }

  function Run(s: State, steps: seq<Step>): (t: State)
    requires Shaped(s) && PossibleRun(s, steps)
    ensures Shaped(t) && |t.proc| == |s.proc|
    decreases |steps|, 1
  {
    if |steps| == 0 then s
    else
      var t := Run(s, steps[..|steps| - 1]);
      NextShaped(t, steps[|steps| - 1]);
      Next(t, steps[|steps| - 1])
  }

  predicate AlwaysSound(s: State, steps: seq<Step>)
    requires Shaped(s) && PossibleRun(s, steps)
  {
    Sound(Run(s, steps)) && (|steps| > 0 ==> AlwaysSound(s, steps[..|steps| - 1]))
  }

  predicate AllHarmless(s: State, steps: seq<Step>)
    requires Shaped(s) && PossibleRun(s, steps)
  {
    |steps| > 0 ==>
      && AllHarmless(s, steps[..|steps| - 1])
      && Harmless(Run(s, steps[..|steps| - 1]), steps[|steps| - 1])
  }

  /** The table is right all along a run, whoever dies, is refused or is swept meanwhile, if
      and only if no step of it is harmful. */
  lemma {:induction false} AlwaysSoundIff(s: State, steps: seq<Step>)
    requires Sound(s) && PossibleRun(s, steps)
    ensures AlwaysSound(s, steps) <==> AllHarmless(s, steps)
  {
    if |steps| > 0 {
      var before := steps[..|steps| - 1];
      AlwaysSoundIff(s, before);
      if AlwaysSound(s, before) { SoundNow(s, before); StepKeepsSoundIff(Run(s, before), steps[|steps| - 1]); }
    }
  }

  /** Runs that are right now were right before. */
  lemma {:induction false} Prefix(s: State, before: seq<Step>, now: seq<Step>)
    requires Shaped(s) && PossibleRun(s, now) && before <= now
    ensures PossibleRun(s, before)
    ensures AlwaysSound(s, now) ==> AlwaysSound(s, before)
    decreases |now|
  {
    if |before| < |now| {
      Prefix(s, before, now[..|now| - 1]);
    } else {
      assert before == now;
    }
  }

  lemma SoundNow(s: State, steps: seq<Step>)
    requires Shaped(s) && PossibleRun(s, steps) && AlwaysSound(s, steps)
    ensures Sound(Run(s, steps))
  {
  }

  lemma SoundNowIff(s: State, steps: seq<Step>)
    requires Shaped(s) && PossibleRun(s, steps)
    ensures AlwaysSound(s, steps) <==> Sound(Run(s, steps)) && (|steps| > 0 ==> AlwaysSound(s, steps[..|steps| - 1]))
  {
  }

  /** The table et_system_start sets up. */
  function Started(n: nat): State { State(seq(n, i => BLANK), 0, map[], seq(n, i => None)) }

  lemma {:induction false} StartedSound(n: nat)
    ensures Sound(Started(n))
  {
    NoneTaken(Started(n).proc);
  }

  lemma {:induction false} NoneTaken(proc: seq<Slot>)
    requires forall i :: 0 <= i < |proc| ==> proc[i].num == -1
    ensures Occupied(proc) == 0
  {
    if |proc| > 0 { NoneTaken(proc[..|proc| - 1]); }
  }

  /** Who holds a slot. */
  function Holders(s: State): set<nat>
    requires Shaped(s)
  { set c | c in s.clients && !Stale(s, c) }

  /** In a table that is right no two holders share a slot, and nprocesses counts them. */
  lemma HoldersCounted(s: State)
    requires Sound(s)
    ensures forall c, d :: c in Holders(s) && d in Holders(s) && c != d ==> s.clients[c].slot != s.clients[d].slot
    ensures |Holders(s)| == s.nprocesses <= |s.proc|
  {
    FullTable(s.proc);
    HoldersBelow(s, |s.proc|);
    assert s.proc[..|s.proc|] == s.proc;
    assert Below(s, |s.proc|) == Holders(s);
  }

  function Below(s: State, n: nat): set<nat>
    requires Shaped(s)
  { set c | c in s.clients && !Stale(s, c) && s.clients[c].slot < n }

  lemma {:induction false} HoldersBelow(s: State, n: nat)
    requires Sound(s) && n <= |s.proc|
    ensures |Below(s, n)| == Occupied(s.proc[..n])
  {
    if n == 0 {
      assert Below(s, n) == {};
    } else {
      HoldersBelow(s, n - 1);
      BelowMore(s, n - 1);
      assert s.proc[..n][..n - 1] == s.proc[..n - 1] && Holds(s, n - 1);
    }
  }

  lemma BelowMore(s: State, n: nat)
    requires Sound(s) && n < |s.proc|
    ensures s.holder[n] == None ==> Below(s, n + 1) == Below(s, n)
    ensures s.holder[n].Some? ==> s.holder[n].value !in Below(s, n) && Below(s, n + 1) == Below(s, n) + {s.holder[n].value}
  {
    assert Holds(s, n);
  }

  // ----- what others can do to a client -----

  predicate Same(s: State, t: State, c: nat)
    requires Shaped(s) && Shaped(t) && c in s.clients
  {
    && |t.proc| == |s.proc| && c in t.clients && t.clients[c] == s.clients[c]
    && t.proc[s.clients[c].slot] == s.proc[s.clients[c].slot] && (Stale(t, c) <==> Stale(s, c))
  }

  /** No harmless step of anyone else touches a client that holds a slot, or its slot, but
      for the monitor's taking it; and that can only happen when its heart has stopped. */
  lemma OthersLeaveMine(s: State, step: Step, c: nat)
    requires Sound(s) && Possible(s, step) && Harmless(s, step) && !By(step, c)
    requires c in s.clients && !Stale(s, c)
    ensures Same(s, Next(s, step), c) || (step == Sweep(s.clients[c].slot) && !s.clients[c].heart && Stale(Next(s, step), c))
  {
    NextShaped(s, step);
    var i := s.clients[c].slot;
    assert Holds(s, i);
    if step.Sweep? {
      assert Known(s, c);
    } else if step.Claim? {
      assert Free(s.proc, FirstFree(s.proc));
    } else {
      assert Holds(s, s.clients[step.c].slot);
    }
  }

  /** The record of holders is right: a client is stale if and only if its slot was swept
      since it took it. */
  lemma {:induction false} StaleIffSwept(s: State, steps: seq<Step>, c: nat)
    requires Sound(s) && PossibleRun(s, steps) && AllHarmless(s, steps)
    requires c in s.clients && !Stale(s, c) && Release(c) !in steps
    ensures c in Run(s, steps).clients && Run(s, steps).clients[c].slot == s.clients[c].slot
    ensures Stale(Run(s, steps), c) <==> Sweep(s.clients[c].slot) in steps
  {
    if |steps| > 0 {
      var before, step := steps[..|steps| - 1], steps[|steps| - 1];
      LastOrBefore(steps, Release(c));
      LastOrBefore(steps, Sweep(s.clients[c].slot));
      StaleIffSwept(s, before, c);
      AlwaysSoundIff(s, before);
      SoundNow(s, before);
      StaleStep(Run(s, before), step, c);
    }
  }

  lemma LastOrBefore(steps: seq<Step>, x: Step)
    requires |steps| > 0
    ensures x in steps <==> x in steps[..|steps| - 1] || x == steps[|steps| - 1]
  {
    assert steps == steps[..|steps| - 1] + [steps[|steps| - 1]];
  }

  lemma StaleStep(s: State, step: Step, c: nat)
    requires Sound(s) && Possible(s, step) && Harmless(s, step) && c in s.clients && step != Release(c)
    ensures Shaped(Next(s, step)) && c in Next(s, step).clients && Next(s, step).clients[c].slot == s.clients[c].slot
    ensures Stale(Next(s, step), c) <==> Stale(s, c) || step == Sweep(s.clients[c].slot)
  {
    NextShaped(s, step);
    if step.Claim? {
      assert Free(s.proc, FirstFree(s.proc)) && Holds(s, FirstFree(s.proc));
      assert Holds(s, s.clients[c].slot);
    }
  }

  // ----- a close that was refused -----

  /** Refused for its attachments, or trying to close again. */
  predicate Stuck(s: State, c: nat)
    requires Shaped(s)
  {
    && c in s.clients && !Stale(s, c) && s.proc[s.clients[c].slot].att != {}
    && (s.clients[c].phase.Refused? || s.clients[c].phase.Shutting? || s.clients[c].phase.Quiet?)
  }

  /** The ways out: the monitor, a kill, or a system that has died. */
  predicate FreesStuck(s: State, step: Step, c: nat)
    requires Shaped(s) && c in s.clients
  { step == Sweep(s.clients[c].slot) || step == BeginKill(c) || step == Test(c, false) }

  lemma StuckStep(s: State, step: Step, c: nat)
    requires Sound(s) && Possible(s, step) && Harmless(s, step) && Stuck(s, c) && !FreesStuck(s, step, c)
    ensures Shaped(Next(s, step)) && Stuck(Next(s, step), c)
    ensures Next(s, step).proc[s.clients[c].slot].att == s.proc[s.clients[c].slot].att
    ensures Next(s, step).clients[c].slot == s.clients[c].slot
  {
    NextShaped(s, step);
    assert Known(s, c);
    if !By(step, c) { OthersLeaveMine(s, step, c); }
  }

  /** Once a close has been refused the client can neither detach nor close: as long as no
      step does harm it keeps slot and attachments until the monitor takes them, or until it
      kills, or its system dies. */
  lemma {:induction false} RefusedForGood(s: State, steps: seq<Step>, c: nat)
    requires Sound(s) && PossibleRun(s, steps) && AllHarmless(s, steps) && Stuck(s, c)
    requires forall step :: step in steps ==> !FreesStuck(s, step, c)
    ensures Stuck(Run(s, steps), c) && Run(s, steps).clients[c].slot == s.clients[c].slot
    ensures Run(s, steps).proc[s.clients[c].slot].att == s.proc[s.clients[c].slot].att
  {
    if |steps| > 0 {
      var before, step := steps[..|steps| - 1], steps[|steps| - 1];
      RefusedForGood(s, before, c);
      AlwaysSoundIff(s, before);
      SoundNow(s, before);
      assert step in steps;
      StuckStep(Run(s, before), step, c);
    }
  }

  lemma Append(s: State, steps: seq<Step>, step: Step)
    requires Shaped(s) && PossibleRun(s, steps) && Possible(Run(s, steps), step)
    ensures PossibleRun(s, steps + [step]) && Run(s, steps + [step]) == Next(Run(s, steps), step)
  {
    assert (steps + [step])[..|steps|] == steps;
  }

  /** What a client can do to leave a living system in peace. */
  predicate Peaceful(step: Step, c: nat) { By(step, c) && !step.BeginKill? && !step.Die? && step != Test(c, false) }

  predicate Leaves(s: State, steps: seq<Step>, c: nat)
    requires Shaped(s)
  {
    && (forall step :: step in steps ==> Peaceful(step, c))
    && PossibleRun(s, steps) && c !in Run(s, steps).clients
  }

  lemma DetachAll(s: State, c: nat) returns (steps: seq<Step>)
    requires Sound(s) && At(s, c, Running)
    ensures PossibleRun(s, steps) && forall step :: step in steps ==> Peaceful(step, c)
    ensures Run(s, steps) == SetAtt(s, s.clients[c].slot, {})
  {
    steps := [];
    var i := s.clients[c].slot;
    var rest := s.proc[i].att;
    assert s.proc[i := s.proc[i].(att := rest)] == s.proc;
    while rest != {}
      invariant PossibleRun(s, steps) && (forall step :: step in steps ==> Peaceful(step, c))
      invariant Run(s, steps) == SetAtt(s, i, rest)
    {
      var e :| e in rest;
      Append(s, steps, Step.Detach(c, e));
      steps, rest := steps + [Step.Detach(c, e)], rest - {e};
      assert Run(s, steps).proc == SetAtt(s, i, rest).proc;
    }
  }

  /** Closing, step by step. */
  lemma ClosePath(s: State, c: nat)
    requires Shaped(s) && (At(s, c, Running) || At(s, c, Refused)) && s.proc[s.clients[c].slot].att == {}
    ensures Possible(s, BeginClose(c))
    ensures var t := Next(s, BeginClose(c));
      Shaped(t) && Possible(t, StopHeart(c)) && var u := Next(t, StopHeart(c));
      Shaped(u) && Possible(u, Test(c, true)) && var v := Next(u, Test(c, true));
      Shaped(v) && Possible(v, Release(c)) && c !in Next(v, Release(c)).clients
  {
  }

  lemma CloseFrees(s: State, steps: seq<Step>, c: nat) returns (all: seq<Step>)
    requires Shaped(s) && PossibleRun(s, steps) && forall step :: step in steps ==> Peaceful(step, c)
    requires At(Run(s, steps), c, Running) || At(Run(s, steps), c, Refused)
    requires Run(s, steps).proc[Run(s, steps).clients[c].slot].att == {}
    ensures Leaves(s, all, c)
  {
    ClosePath(Run(s, steps), c);
    Append(s, steps, BeginClose(c));
    var a := steps + [BeginClose(c)];
    Append(s, a, StopHeart(c));
    var b := a + [StopHeart(c)];
    Append(s, b, Test(c, true));
    var d := b + [Test(c, true)];
    Append(s, d, Release(c));
    all := d + [Release(c)];
  }

  lemma {:induction false} PeacefulIsHarmless(s: State, steps: seq<Step>, c: nat)
    requires Sound(s) && PossibleRun(s, steps) && c in s.clients && Stuck(s, c)
    requires forall step :: step in steps ==> Peaceful(step, c)
    ensures AllHarmless(s, steps) && Stuck(Run(s, steps), c)
  {
    if |steps| > 0 {
      var before, step := steps[..|steps| - 1], steps[|steps| - 1];
      PeacefulIsHarmless(s, before, c);
      AlwaysSoundIff(s, before);
      SoundNow(s, before);
      assert step in steps;
      StuckStep(Run(s, before), step, c);
    }
  }

  /** A client that holds a slot of a living system can give it back by detaching and
      closing if and only if it has not been refused, or has nothing attached. */
  lemma CanLeaveIff(s: State, c: nat)
    requires Sound(s) && c in s.clients && !Stale(s, c) && (At(s, c, Running) || At(s, c, Refused))
    ensures (exists steps :: Leaves(s, steps, c)) <==> At(s, c, Running) || s.proc[s.clients[c].slot].att == {}
  {
    if At(s, c, Running) {
      var steps := DetachAll(s, c);
      var all := CloseFrees(s, steps, c);
    } else if s.proc[s.clients[c].slot].att == {} {
      var all := CloseFrees(s, [], c);
    } else {
      forall steps | PossibleRun(s, steps) && forall step :: step in steps ==> Peaceful(step, c)
        ensures c in Run(s, steps).clients
      {
        PeacefulIsHarmless(s, steps, c);
      }
    }
  }

  /** What happens otherwise: client 0 is refused, the monitor takes its slot, client 1 gets
      it, client 0 kills. */
  const ATTACHED: seq<Step> := [Claim(0), Declare(0), Step.Attach(0, 5)]
  const REFUSED: seq<Step> := ATTACHED + [BeginClose(0), StopHeart(0), Test(0, true)]
  const STOLEN: seq<Step> := REFUSED + [Sweep(0), Claim(1), Declare(1), BeginKill(0), Release(0)]

  /** One more step of a run whose states are known. */
  lemma Then(s: State, steps: seq<Step>, t: State, step: Step, u: State)
    requires Shaped(s) && PossibleRun(s, steps) && Run(s, steps) == t
    requires Possible(t, step) && Next(t, step) == u
    ensures PossibleRun(s, steps + [step]) && Run(s, steps + [step]) == u
  {
    Append(s, steps, step);
  }

  lemma AttachedIsReachable()
    ensures PossibleRun(Started(1), ATTACHED)
    ensures Run(Started(1), ATTACHED) ==
            State([Slot(0, true, {5})], 1, map[0 := Client(0, Running, true, false)], [Some(0)])
  {
    var s := Started(1);
    var t := State([Slot(0, false, {})], 1, map[0 := Client(0, Opening, false, false)], [Some(0)]);
    var u := State([Slot(0, true, {})], 1, map[0 := Client(0, Running, true, false)], [Some(0)]);
    var v := State([Slot(0, true, {5})], 1, map[0 := Client(0, Running, true, false)], [Some(0)]);
    assert s.proc == [BLANK] && FirstFree([BLANK]) == 0;
    assert s.holder[0 := Some(0)] == [Some(0)];
    Then(s, [], s, Claim(0), t);
    Then(s, [] + [Claim(0)], t, Declare(0), u);
    assert {} + {5} == {5} && u.proc[0 := Slot(0, true, {5})] == v.proc;
    Then(s, [] + [Claim(0)] + [Declare(0)], u, Step.Attach(0, 5), v);
    assert ATTACHED == [] + [Claim(0)] + [Declare(0)] + [Step.Attach(0, 5)];
  }

  lemma QuietIsReachable()
    ensures PossibleRun(Started(1), ATTACHED + [BeginClose(0)] + [StopHeart(0)])
    ensures Run(Started(1), ATTACHED + [BeginClose(0)] + [StopHeart(0)]) == RefusedState(Quiet, true)
  {
    AttachedIsReachable();
    var s, v := Started(1), Run(Started(1), ATTACHED);
    var w := State([Slot(0, false, {5})], 1, map[0 := Client(0, Shutting, true, false)], [Some(0)]);
    Then(s, ATTACHED, v, BeginClose(0), w);
    Then(s, ATTACHED + [BeginClose(0)], w, StopHeart(0), RefusedState(Quiet, true));
  }

  lemma RefusedIsReachable()
    ensures PossibleRun(Started(1), REFUSED) && Run(Started(1), REFUSED) == RefusedState(Refused, true)
  {
    QuietIsReachable();
    var most := ATTACHED + [BeginClose(0)] + [StopHeart(0)];
    Then(Started(1), most, RefusedState(Quiet, true), Test(0, true), RefusedState(Refused, true));
    assert REFUSED == most + [Test(0, true)];
  }

  function RefusedState(phase: Phase, open: bool): State {
    State([Slot(0, open, {5})], 1, map[0 := Client(0, phase, false, false)], [Some(0)])
  }

  /** After the sweep, with client 1 in the slot, or on the way there. */
  function StolenState(slot: Slot, n: int, phase: Phase, heart: bool): State {
    State([slot], n, map[0 := Client(0, Refused, false, false), 1 := Client(0, phase, heart, false)], [Some(1)])
  }

  lemma StealsSlot()
    ensures PossibleRun(Started(1), REFUSED + [Sweep(0)] + [Claim(1)] + [Declare(1)])
    ensures Run(Started(1), REFUSED + [Sweep(0)] + [Claim(1)] + [Declare(1)]) == StolenState(Slot(0, true, {}), 1, Running, true)
  {
    RefusedIsReachable();
    var s, t := Started(1), RefusedState(Refused, true);
    var u := State([BLANK], 0, map[0 := t.clients[0]], [None]);
    assert t.proc[0 := BLANK] == [BLANK] && t.holder[0 := None] == [None] && Opened([BLANK]) == 0;
    Then(s, REFUSED, t, Sweep(0), u);
    var v := StolenState(Slot(0, false, {}), 1, Opening, false);
    assert FirstFree([BLANK]) == 0 && [BLANK][0 := Slot(0, false, {})] == [Slot(0, false, {})];
    assert u.clients[1 := Client(0, Opening, false, false)] == v.clients;
    Then(s, REFUSED + [Sweep(0)], u, Claim(1), v);
    assert v.clients[1 := Client(0, Running, true, false)] == StolenState(Slot(0, true, {}), 1, Running, true).clients;
    Then(s, REFUSED + [Sweep(0)] + [Claim(1)], v, Declare(1), StolenState(Slot(0, true, {}), 1, Running, true));
  }

  /** Client 1 is running with a beating heart, but its slot is free and nobody is counted. */
  lemma KillAfterSweep()
    ensures PossibleRun(Started(1), STOLEN)
    ensures Run(Started(1), STOLEN) == State([BLANK], 0, map[1 := Client(0, Running, true, false)], [Some(1)])
    ensures !Sound(Run(Started(1), STOLEN))
  {
    StealsSlot();
    var s, t := Started(1), StolenState(Slot(0, true, {}), 1, Running, true);
    var most := REFUSED + [Sweep(0)] + [Claim(1)] + [Declare(1)];
    var u := t.(clients := t.clients[0 := Client(0, Leaving, false, false)]);
    Then(s, most, t, BeginKill(0), u);
    var v := State([BLANK], 0, map[1 := Client(0, Running, true, false)], [Some(1)]);
    assert u.clients - {0} == v.clients && u.proc[0 := BLANK] == [BLANK];
    Then(s, most + [BeginKill(0)], u, Release(0), v);
    assert STOLEN == most + [BeginKill(0)] + [Release(0)];
    assert !Holds(v, 0);
  }

  /** Client 0 has died with its slot open. */
  const DEAD := State([Slot(0, true, {}), BLANK], 1, map[0 := Client(0, Running, false, true)], [Some(0), None])

  /** It had claimed the slot, and then declared itself. */
  const CLAIMED := State([Slot(0, false, {}), BLANK], 1, map[0 := Client(0, Opening, false, false)], [Some(0), None])

  const DECLARED := State([Slot(0, true, {}), BLANK], 1, map[0 := Client(0, Running, true, false)], [Some(0), None])

  lemma ClaimsOne()
    ensures Shaped(Started(2)) && PossibleRun(Started(2), [] + [Claim(0)]) && Run(Started(2), [] + [Claim(0)]) == CLAIMED
  {
    var s := Started(2);
    assert s.proc == [BLANK, BLANK] && s.proc[..1] == [BLANK] && FirstFree([BLANK]) == 0 && FirstFree(s.proc) == 0;
    assert s.proc[0 := Slot(0, false, {})] == CLAIMED.proc && s.holder[0 := Some(0)] == CLAIMED.holder;
    Then(s, [], s, Claim(0), CLAIMED);
  }

  lemma DeclaresAndDies()
    ensures Possible(CLAIMED, Declare(0)) && Next(CLAIMED, Declare(0)) == DECLARED
    ensures Possible(DECLARED, Die(0)) && Next(DECLARED, Die(0)) == DEAD
  {
    assert CLAIMED.proc[0 := Slot(0, true, {})] == DECLARED.proc;
  }

  lemma DiesOpen() returns (steps: seq<Step>)
    ensures PossibleRun(Started(2), steps) && Run(Started(2), steps) == DEAD
    ensures steps == [] + [Claim(0)] + [Declare(0)] + [Die(0)]
  {
    ClaimsOne();
    DeclaresAndDies();
    Then(Started(2), [] + [Claim(0)], CLAIMED, Declare(0), DECLARED);
    Then(Started(2), [] + [Claim(0)] + [Declare(0)], DECLARED, Die(0), DEAD);
    steps := [] + [Claim(0)] + [Declare(0)] + [Die(0)];
  }

  lemma SweptMeanwhile(w: State)
    requires Shaped(w) && w.proc == [Slot(0, true, {}), Slot(1, false, {})]
    ensures Swept(w, 0).proc == [BLANK, Slot(1, false, {})] && Swept(w, 0).nprocesses == 0
  {
    var proc := w.proc[0 := BLANK];
    assert proc == [BLANK, Slot(1, false, {})] && proc[..1] == [BLANK] && Opened([BLANK]) == 0;
  }

  /** The monitor takes that while client 1 is opening: one slot is taken, and nobody is counted. */
  lemma SweepWhileOpening() returns (steps: seq<Step>)
    ensures PossibleRun(Started(2), steps)
    ensures steps == [] + [Claim(0)] + [Declare(0)] + [Die(0)] + [Claim(1)] + [Sweep(0)]
    ensures Run(Started(2), steps).proc == [BLANK, Slot(1, false, {})] && Run(Started(2), steps).nprocesses == 0
  {
    var dead := DiesOpen();
    var proc := DEAD.proc;
    assert proc[..1] == [Slot(0, true, {})] && FirstFree([Slot(0, true, {})]) == 1 && FirstFree(proc) == 1;
    Append(Started(2), dead, Claim(1));
    var w := Next(DEAD, Claim(1));
    assert w.proc == [Slot(0, true, {}), Slot(1, false, {})];
    Append(Started(2), dead + [Claim(1)], Sweep(0));
    SweptMeanwhile(w);
    steps := dead + [Claim(1)] + [Sweep(0)];
  }

  // ----- the table itself -----

  /** What client c did in a run. */
  function ActsOf(steps: seq<Step>, c: nat): seq<Step> {
    if |steps| == 0 then []
    else ActsOf(steps[..|steps| - 1], c) + if By(steps[|steps| - 1], c) then [steps[|steps| - 1]] else []
  }

  lemma ActsAppend(steps: seq<Step>, step: Step, c: nat)
    ensures ActsOf(steps + [step], c) == ActsOf(steps, c) + if By(step, c) then [step] else []
  {
    assert (steps + [step])[..|steps|] == steps;
  }

  /** Between two moments of a run client c did this. */
  predicate Did(before: seq<Step>, now: seq<Step>, c: nat, acts: seq<Step>) {
    before <= now && ActsOf(now, c) == ActsOf(before, c) + acts
  }

  /** How far a client is after a step of closing or killing. */
  function After(step: Step, att: set<nat>): Phase {
    match step
    case BeginClose(_) => Shutting
    case StopHeart(_) => Quiet
    case Test(_, alive) => if alive && att != {} then Refused else Leaving
    case _ => Leaving
  }

  /** How things stood when a call began. */
  datatype Call = Call(before: seq<Step>, slot: nat, att: set<nat>, stale: bool)

  /** Between two moments of a run the monitor took slot i. */
  predicate Taken(before: seq<Step>, now: seq<Step>, i: nat)
    requires |before| <= |now|
  { Sweep(i) in now[|before|..] }

  lemma TakenBetween(a: seq<Step>, b: seq<Step>, d: seq<Step>, i: nat)
    requires a <= b <= d
    ensures Taken(a, d, i) <==> Taken(a, b, i) || Taken(b, d, i)
  {
    assert d[|a|..] == b[|a|..] + d[|b|..];
  }

  lemma TakenGrows(a: seq<Step>, b: seq<Step>, d: seq<Step>, i: nat)
    requires a <= b <= d
    ensures Taken(a, b, i) ==> Taken(a, d, i)
  {
    TakenBetween(a, b, d, i);
  }

  /** In the middle of a call in which client c has done `acts`: it has lost its slot only
      to the monitor, and then knows nothing of it; or it has what it had. */
  ghost predicate InCall(start: State, call: Call, t: State, now: seq<Step>, c: nat, acts: seq<Step>) {
    && Reached(start, t, now) && Did(call.before, now, c, acts) && c in t.clients && t.clients[c].slot == call.slot
    && (AlwaysSound(start, now) && call.stale ==> Stale(t, c))
    && (AlwaysSound(start, now) && !call.stale && !Taken(call.before, now, call.slot) ==>
          !Stale(t, c) && t.proc[call.slot].att == call.att)
  }

  predicate Reached(start: State, t: State, now: seq<Step>) {
    Shaped(start) && PossibleRun(start, now) && Run(start, now) == t
  }

  /** A later moment; if the table is right then, it was right before. */
  predicate Later(start: State, before: seq<Step>, now: seq<Step>) {
    && Shaped(start) && PossibleRun(start, before) && PossibleRun(start, now) && before <= now
    && (AlwaysSound(start, now) ==> AlwaysSound(start, before))
  }

  function Rest(att: set<nat>, n: nat): set<nat> { set e | e in att && e >= n }

  /** In the middle of detaching: the attachments below n have gone, unless the client
      counts as closed. */
  ghost predicate ToGo(start: State, call: Call, t: State, now: seq<Step>, c: nat, acts: seq<Step>, n: nat) {
    && Reached(start, t, now) && Did(call.before, now, c, acts) && c in t.clients && t.clients[c].slot == call.slot
    && (AlwaysSound(start, now) && call.stale ==> Stale(t, c))
    && (AlwaysSound(start, now) && !call.stale && !Taken(call.before, now, call.slot) ==>
          !Stale(t, c) && t.proc[call.slot].att == if Closed(t.clients[c]) then call.att else Rest(call.att, n))
  }

  lemma DetachGoes(start: State, call: Call, s: State, before: seq<Step>, c: nat, acts: seq<Step>, n: nat)
    requires ToGo(start, call, s, before, c, acts, n) && (At(s, c, Running) || At(s, c, Refused))
    ensures var goes := At(s, c, Running) && n in s.proc[call.slot].att;
      if goes then ToGo(start, call, Next(s, Detach(c, n)), before + [Detach(c, n)], c, acts + [Detach(c, n)], n + 1)
      else ToGo(start, call, s, before, c, acts, n + 1)
  {
    if At(s, c, Running) && n in s.proc[call.slot].att {
      Append(start, before, Detach(c, n));
      DidOne(call.before, before, Detach(c, n), c, acts);
      TakenBetween(call.before, before, before + [Detach(c, n)], call.slot);
      Prefix(start, before, before + [Detach(c, n)]);
      assert Rest(call.att, n + 1) == Rest(call.att, n) - {n};
    } else if n !in Rest(call.att, n) {
      assert Rest(call.att, n + 1) == Rest(call.att, n);
    }
  }

  lemma ToGoLeft(start: State, call: Call, s: State, before: seq<Step>, t: State, now: seq<Step>, c: nat,
                 acts: seq<Step>, n: nat)
    requires ToGo(start, call, s, before, c, acts, n) && Left(start, s, before, t, now, c)
    ensures ToGo(start, call, t, now, c, acts, n)
  {
    Prefix(start, before, now);
    TakenBetween(call.before, before, now, call.slot);
  }

  lemma DidAll(a: seq<Step>, b: seq<Step>, d: seq<Step>, c: nat, x: seq<Step>, y: seq<Step>)
    requires Did(a, b, c, x) && Did(b, d, c, y)
    ensures Did(a, d, c, x + y)
  {
  }

  predicate Closes(step: Step, c: nat) {
    step == BeginClose(c) || step == StopHeart(c) || step == BeginKill(c) || (step.Test? && step.c == c)
  }

  lemma CallLeft(start: State, call: Call, s: State, before: seq<Step>, t: State, now: seq<Step>, c: nat, acts: seq<Step>)
    requires InCall(start, call, s, before, c, acts) && Left(start, s, before, t, now, c)
    ensures InCall(start, call, t, now, c, acts) && Later(start, before, now)
  {
    Prefix(start, before, now);
    TakenBetween(call.before, before, now, call.slot);
  }

  lemma CallStep(start: State, call: Call, s: State, before: seq<Step>, step: Step, c: nat, acts: seq<Step>)
    requires InCall(start, call, s, before, c, acts) && Possible(s, step) && Closes(step, c)
    ensures InCall(start, call, Next(s, step), before + [step], c, acts + [step]) && Later(start, before, before + [step])
    ensures At(Next(s, step), c, After(step, s.proc[call.slot].att))
    ensures AlwaysSound(start, before + [step]) && !call.stale && !Taken(call.before, before + [step], call.slot) ==>
      s.proc[call.slot].att == call.att
  {
    Append(start, before, step);
    ActsAppend(before, step, c);
    TakenBetween(call.before, before, before + [step], call.slot);
    Prefix(start, before, before + [step]);
  }

  lemma CallEnds(start: State, call: Call, s: State, before: seq<Step>, c: nat, acts: seq<Step>)
    requires Sound(start) && InCall(start, call, s, before, c, acts) && At(s, c, Leaving)
    ensures Later(start, before, before + [Release(c)]) && Did(call.before, before + [Release(c)], c, acts + [Release(c)])
    ensures AlwaysSound(start, before + [Release(c)]) ==> !call.stale
  {
    Append(start, before, Release(c));
    ActsAppend(before, Release(c), c);
    Prefix(start, before, before + [Release(c)]);
    if AlwaysSound(start, before + [Release(c)]) {
      SoundNow(start, before);
      StepKeepsSoundIff(s, Release(c));
    }
  }

  lemma LaterLeft(start: State, a: seq<Step>, t: State, b: seq<Step>, u: State, now: seq<Step>, c: nat)
    requires Later(start, a, b) && Left(start, t, b, u, now, c)
    ensures Later(start, a, now) && (AlwaysSound(start, now) ==> AlwaysSound(start, b))
  {
    Prefix(start, b, now);
  }

  lemma DidOne(before: seq<Step>, now: seq<Step>, step: Step, c: nat, acts: seq<Step>)
    requires Did(before, now, c, acts) && By(step, c)
    ensures Did(before, now + [step], c, acts + [step])
  {
    ActsAppend(now, step, c);
  }

  class Table {
    const proc: array<Slot>
    const nattachments: nat
    var nprocesses: int
    var clients: map<nat, Client>
    ghost var holder: seq<Option<nat>>
    ghost var trace: seq<Step>        // all steps taken so far

    ghost function Now(): State
      reads this, proc
    { State(proc[..], nprocesses, clients, holder) }

    /** What the fields hold is what the steps taken so far lead to. */
    ghost predicate Valid()
      reads this, proc
    {
      && PossibleRun(Started(proc.Length), trace) && Run(Started(proc.Length), trace) == Now()
      && forall i :: 0 <= i < proc.Length ==> forall e :: e in proc[i].att ==> e < nattachments
    }

    /** The table has been right from the start. */
    ghost predicate Unharmed()
      requires Valid()
      reads this, proc
    { AlwaysSound(Started(proc.Length), trace) }

    constructor (size: nat, nattachments: nat)
      ensures Valid() && trace == [] && proc.Length == size && fresh(proc) && this.nattachments == nattachments
    {
      proc := new Slot[size](i => BLANK);
      this.nattachments := nattachments;
      nprocesses, clients, holder, trace := 0, map[], seq(size, i => None), [];
    }

    /** The next step has just been taken. */
    ghost method Log(before: State, step: Step)
      requires PossibleRun(Started(proc.Length), trace) && Run(Started(proc.Length), trace) == before
      requires Possible(before, step) && Next(before, step) == Now()
      requires forall i :: 0 <= i < proc.Length ==> forall e :: e in proc[i].att ==> e < nattachments
      modifies this`trace
      ensures Valid() && trace == old(trace) + [step]
    {
      ghost var now := Now();
      Append(Started(proc.Length), trace, step);
      trace := trace + [step];
      assert Now() == now;
    }

    /** The slot search of etl_open. */
    method FindSlot() returns (slot: int)
      ensures slot == -1 <==> FirstFree(proc[..]) == proc.Length
      ensures slot != -1 ==> slot == FirstFree(proc[..])
    {
      for i := 0 to proc.Length
        invariant forall j: nat :: j < i ==> !Free(proc[..], j)
      {
        if proc[i].num == -1 {
          assert Free(proc[..], i);
          return i;
        }
      }
      return -1;
    }

    /** Under the lock: a client takes a slot, if there is one. */
    method Claim(c: nat) returns (slot: int)
      requires Valid() && c !in clients
      modifies this, proc
      ensures Valid() && (slot == -1 <==> old(FirstFree(proc[..])) == proc.Length)
      ensures slot == -1 ==> Now() == old(Now()) && trace == old(trace)
      ensures slot != -1 ==> Now() == Next(old(Now()), Step.Claim(c)) && trace == old(trace) + [Step.Claim(c)]
    {
      ghost var before := Now();
      slot := FindSlot();
      if slot == -1 { return; }
      nprocesses := nprocesses + 1;
      proc[slot] := proc[slot].(num := slot);
      clients := clients[c := Client(slot, Opening, false, false)];
      holder := holder[slot := Some(c)];
      Log(before, Step.Claim(c));
    }

    /** Under the lock: the status of a client's slot, with what the client knows itself. */
    method SetStatus(c: nat, open: bool, client: Client, ghost step: Step)
      requires Valid() && Possible(Now(), step) && (step.Declare? || step.BeginClose? || step.StopHeart?) && step.c == c
      requires client.slot == clients[c].slot && Next(Now(), step) == SetOpen(Put(Now(), c, client), client.slot, open)
      modifies this, proc
      ensures Valid() && Now() == Next(old(Now()), step) && trace == old(trace) + [step]
    {
      ghost var before := Now();
      proc[client.slot] := proc[client.slot].(open := open);
      clients := clients[c := client];
      Log(before, step);
    }

    /** nprocesses-- and et_init_process, under the lock. */
    method Release(c: nat)
      requires Valid() && Possible(Now(), Step.Release(c))
      modifies this, proc
      ensures Valid() && Now() == Next(old(Now()), Step.Release(c)) && trace == old(trace) + [Step.Release(c)]
    {
      ghost var before := Now();
      var slot := clients[c].slot;
      nprocesses := nprocesses - 1;
      proc[slot] := BLANK;
      if holder[slot] == Some(c) { holder := holder[slot := None]; }
      clients := clients - {c};
      Log(before, Step.Release(c));
    }

    /** A client's own record changes, or its process ends. */
    method Record(c: nat, client: Client, ghost step: Step)
      requires Valid() && Possible(Now(), step) && Next(Now(), step) == Put(Now(), c, client)
      modifies this
      ensures Valid() && Now() == Next(old(Now()), step) && trace == old(trace) + [step]
    {
      ghost var before := Now();
      clients := clients[c := client];
      Log(before, step);
    }

    /** att[] of a client's slot. */
    method SetAtts(c: nat, att: set<nat>, ghost step: Step)
      requires Valid() && Possible(Now(), step) && (step.Attach? || step.Detach?) && step.c == c
      requires Next(Now(), step) == SetAtt(Now(), clients[c].slot, att) && forall e :: e in att ==> e < nattachments
      modifies this, proc
      ensures Valid() && Now() == Next(old(Now()), step) && trace == old(trace) + [step]
    {
      ghost var before := Now();
      proc[clients[c].slot] := proc[clients[c].slot].(att := att);
      Log(before, step);
    }

    /** The loop of et_fix_nprocs. */
    method CountOpen() returns (nprocs: nat)
      ensures nprocs == Opened(proc[..])
    {
      nprocs := 0;
      for j := 0 to proc.Length
        invariant nprocs == Opened(proc[..j])
      {
        if proc[j].open { nprocs := nprocs + 1; }
        assert proc[..j + 1][..j] == proc[..j];
      }
      assert proc[..proc.Length] == proc[..];
    }

    /** The heart monitor cleans up slot i and counts the open slots again. */
    method Sweep(i: nat)
      requires Valid() && Possible(Now(), Step.Sweep(i))
      modifies this, proc
      ensures Valid() && Now() == Next(old(Now()), Step.Sweep(i)) && trace == old(trace) + [Step.Sweep(i)]
    {
      ghost var before := Now();
      proc[i] := BLANK;
      nprocesses := CountOpen();
      holder := holder[i := None];
      Log(before, Step.Sweep(i));
    }

    /** Any one step that is possible. */
    method Turn(step: Step)
      requires Valid() && Possible(Now(), step) && (step.Attach? ==> step.e < nattachments)
      modifies this, proc
      ensures Valid() && Now() == Next(old(Now()), step) && trace == old(trace) + [step]
    {
      match step
      case Claim(c) => var slot := Claim(c);
      case Declare(c) => SetStatus(c, true, clients[c].(phase := Running, heart := true), step);
      case Attach(c, e) => SetAtts(c, proc[clients[c].slot].att + {e}, step);
      case Detach(c, e) => SetAtts(c, proc[clients[c].slot].att - {e}, step);
      case BeginClose(c) => SetStatus(c, false, clients[c].(phase := Shutting), step);
      case StopHeart(c) => SetStatus(c, true, clients[c].(phase := Quiet, heart := false), step);
      case Test(c, alive) =>
        var refused := alive && proc[clients[c].slot].att != {};
        Record(c, clients[c].(phase := if refused then Refused else Leaving), step);
      case BeginKill(c) => Record(c, clients[c].(phase := Leaving), step);
      case Release(c) => Release(c);
      case Die(c) => Record(c, clients[c].(heart := false, dead := true), step);
      case Sweep(i) => Sweep(i);
    }

    /** Whatever other clients and the heart monitor do meanwhile. */
    method Others(c: nat)
      requires Valid()
      modifies this, proc
      ensures Valid() && Left(Started(proc.Length), old(Now()), old(trace), Now(), trace, c)
    {
      StartedSound(proc.Length);
      var turns: nat := *;
      while turns > 0
        invariant Valid() && Left(Started(proc.Length), old(Now()), old(trace), Now(), trace, c)
        decreases turns
      {
        turns := turns - 1;
        var step: Step := *;
        if !By(step, c) && (step.Attach? ==> step.e < nattachments)
          && Possible(State(proc[..], nprocesses, clients, []), step)
        {
          LeftStep(Started(proc.Length), old(Now()), old(trace), Now(), trace, step, c);
          Turn(step);
        }
      }
    }

    /** etl_open. If a thread cannot be started the slot and the count are given back. */
    method Open(c: nat) returns (status: Status)
      requires Valid() && c !in clients
      modifies this, proc
      ensures Valid() && (status == OK <==> c in clients)
      ensures status == OK ==> At(Now(), c, Running) && Did(old(trace), trace, c, [Step.Claim(c)] + [Declare(c)])
      ensures status != OK ==>
        Did(old(trace), trace, c, []) || Did(old(trace), trace, c, [Step.Claim(c)] + [Step.Release(c)])
    {
      Others(c);
      ghost var waited := trace;
      var slot := Claim(c);
      if slot == -1 { return ERROR; }
      DidOne(old(trace), waited, Step.Claim(c), c, []);
      status := StartThreads(c, old(trace));
    }

    /** The second part of et_open, with a slot. */
    method StartThreads(c: nat, ghost before: seq<Step>) returns (status: Status)
      requires Valid() && At(Now(), c, Opening) && Did(before, trace, c, [] + [Step.Claim(c)])
      modifies this, proc
      ensures Valid() && (if status == OK then At(Now(), c, Running) else c !in clients)
      ensures Did(before, trace, c, [] + [Step.Claim(c)] + [if status == OK then Declare(c) else Step.Release(c)])
    {
      Others(c);
      var heartbeat: bool, heartmonitor: bool := *, *;
      ghost var waited := trace;
      if !heartbeat || !heartmonitor {
        Release(c);
        status := ERROR;
        DidOne(before, waited, Step.Release(c), c, [] + [Step.Claim(c)]);
      } else {
        Turn(Declare(c));
        status := OK;
        DidOne(before, waited, Declare(c), c, [] + [Step.Claim(c)]);
      }
      Others(c);
    }

    /** A client of its own accord: open, or refused before. */
    ghost predicate Calling(c: nat)
      requires Valid()
      reads this, proc
    { At(Now(), c, Running) || At(Now(), c, Refused) }

    /** et_station_attach, as far as the table goes: attachment e is now this client's. */
    method StationAttach(c: nat, e: nat) returns (status: Status)
      requires Valid() && Calling(c) && e < nattachments
      modifies this, proc
      ensures Valid() && status == if old(Closed(clients[c])) then CLOSED else OK
      ensures trace == if old(Closed(clients[c])) then old(trace) else old(trace) + [Attach(c, e)]
    {
      if Closed(clients[c]) { return CLOSED; }
      Turn(Attach(c, e));
      status := OK;
    }

    /** et_station_detach, as far as the table goes. */
    method StationDetach(c: nat, e: nat) returns (status: Status)
      requires Valid() && Calling(c) && e in proc[clients[c].slot].att
      modifies this, proc
      ensures Valid() && status == if old(Closed(clients[c])) then CLOSED else OK
      ensures trace == if old(Closed(clients[c])) then old(trace) else old(trace) + [Detach(c, e)]
    {
      if Closed(clients[c]) { return CLOSED; }
      Turn(Detach(c, e));
      status := OK;
    }

    ghost predicate Mine(call: Call, c: nat, acts: seq<Step>)
      reads this, proc
    { InCall(Started(proc.Length), call, Now(), trace, c, acts) }

    ghost function Begin(c: nat): (call: Call)
      requires Valid() && c in clients
      reads this, proc
      ensures Mine(call, c, [])
    { Call(trace, clients[c].slot, proc[clients[c].slot].att, Stale(Now(), c)) }

    /** One step of a closing or killing client; then others have their turn. */
    method MineTurn(step: Step, ghost call: Call, c: nat, ghost acts: seq<Step>)
      requires Valid() && Mine(call, c, acts) && Possible(Now(), step) && Closes(step, c)
      modifies this, proc
      ensures Valid() && Mine(call, c, acts + [step])
      ensures if step.Test? then At(Now(), c, Refused) || At(Now(), c, Leaving) else At(Now(), c, After(step, {}))
      ensures Unharmed() && !call.stale && !Taken(call.before, trace, call.slot) ==> At(Now(), c, After(step, call.att))
    {
      ghost var s, before := Now(), trace;
      Turn(step);
      CallStep(Started(proc.Length), call, s, before, step, c, acts);
      s, before := Now(), trace;
      Others(c);
      CallLeft(Started(proc.Length), call, s, before, Now(), trace, c, acts + [step]);
    }

    /** And its last: in a table that stays right, the slot was still its own. */
    method GiveBack(ghost call: Call, c: nat, ghost acts: seq<Step>)
      requires Valid() && Mine(call, c, acts) && At(Now(), c, Leaving)
      modifies this, proc
      ensures Valid() && c !in clients && Did(call.before, trace, c, acts + [Step.Release(c)])
      ensures Later(Started(proc.Length), old(trace), trace) && (Unharmed() ==> !call.stale)
    {
      ghost var s, before := Now(), trace;
      Release(c);
      StartedSound(proc.Length);
      CallEnds(Started(proc.Length), call, s, before, c, acts);
      ghost var t, released := Now(), trace;
      Others(c);
      LaterLeft(Started(proc.Length), before, t, released, Now(), trace, c);
    }

    /** The first part of et_close. */
    method Stop(ghost call: Call, c: nat)
      requires Valid() && Mine(call, c, []) && Calling(c)
      modifies this, proc
      ensures Valid() && Mine(call, c, [BeginClose(c), StopHeart(c)]) && At(Now(), c, Quiet)
    {
      MineTurn(BeginClose(c), call, c, []);
      assert [] + [BeginClose(c)] == [BeginClose(c)];
      MineTurn(StopHeart(c), call, c, [BeginClose(c)]);
      assert [BeginClose(c)] + [StopHeart(c)] == [BeginClose(c), StopHeart(c)];
    }

    /** etl_close. A client of a living system that is attached is refused, but it counts
        as closed from then on, and its heart has stopped. */
    method Close(c: nat, alive: bool) returns (status: Status)
      requires Valid() && Calling(c)
      modifies this, proc
      ensures Valid() && (status == OK || status == ERROR)
      ensures Did(old(trace), trace, c,
        [BeginClose(c), StopHeart(c), Test(c, alive)] + if status == OK then [Step.Release(c)] else [])
      ensures if status == OK then c !in clients else At(Now(), c, Refused)
      ensures Unharmed() && !old(Stale(Now(), c)) && !Taken(old(trace), trace, old(clients[c].slot)) ==>
        (status == OK <==> !alive || old(proc[clients[c].slot].att) == {})
      ensures Unharmed() && status == OK ==> !old(Stale(Now(), c))
    {
      ghost var call := Begin(c);
      Stop(call, c);
      MineTurn(Test(c, alive), call, c, [BeginClose(c), StopHeart(c)]);
      assert [BeginClose(c), StopHeart(c)] + [Test(c, alive)] == [BeginClose(c), StopHeart(c), Test(c, alive)];
      if clients[c].phase.Refused? { return ERROR; }
      ghost var tested := trace;
      GiveBack(call, c, [BeginClose(c), StopHeart(c), Test(c, alive)]);
      TakenGrows(call.before, tested, trace, call.slot);
      status := OK;
    }

    /** The first part of et_forcedclose and et_kill: detach from whatever will let go. */
    method DetachAll(c: nat) returns (ghost acts: seq<Step>)
      requires Valid() && Calling(c)
      modifies this, proc
      ensures Valid() && (forall step :: step in acts ==> step.Detach?) && c in clients && clients[c] == old(clients[c])
      ensures ToGo(Started(proc.Length), old(Begin(c)), Now(), trace, c, acts, nattachments)
    {
      ghost var call := Begin(c);
      acts := [];
      var i := 0;
      assert Rest(call.att, 0) == call.att;
      while i < nattachments
        invariant i <= nattachments && Valid() && forall step :: step in acts ==> step.Detach?
        invariant c in clients && clients[c] == old(clients[c])
        invariant ToGo(Started(proc.Length), call, Now(), trace, c, acts, i)
      {
        acts := DetachOne(call, c, acts, i);
        i := i + 1;
      }
    }

    method DetachOne(ghost call: Call, c: nat, ghost acts: seq<Step>, i: nat) returns (ghost more: seq<Step>)
      requires Valid() && Calling(c) && ToGo(Started(proc.Length), call, Now(), trace, c, acts, i)
      modifies this, proc
      ensures Valid() && (more == acts || more == acts + [Detach(c, i)]) && c in clients && clients[c] == old(clients[c])
      ensures ToGo(Started(proc.Length), call, Now(), trace, c, more, i + 1)
    {
      ghost var s, before := Now(), trace;
      more := acts;
      if i in proc[clients[c].slot].att {
        var status := StationDetach(c, i);
        if status == OK { more := acts + [Detach(c, i)]; }
      }
      DetachGoes(Started(proc.Length), call, s, before, c, acts, i);
      s, before := Now(), trace;
      Others(c);
      ToGoLeft(Started(proc.Length), call, s, before, Now(), trace, c, more, i + 1);
    }

    /** etl_forcedclose. */
    method ForcedClose(c: nat, alive: bool) returns (status: Status)
      requires Valid() && Calling(c)
      modifies this, proc
      ensures Valid() && (status == OK || status == ERROR) && old(trace) <= trace
      ensures if status == OK then c !in clients else At(Now(), c, Refused)
      ensures Unharmed() && !old(Stale(Now(), c)) && !Taken(old(trace), trace, old(clients[c].slot)) ==>
        (status == OK <==> !alive || old(At(Now(), c, Running) || proc[clients[c].slot].att == {}))
      ensures Unharmed() && status == OK ==> !old(Stale(Now(), c))
    {
      ghost var call := Begin(c);
      assert Rest(call.att, nattachments) == {};
      if alive { ghost var acts := DetachAll(c); }
      ghost var between := trace;
      status := Close(c, alive);
      if Unharmed() {
        Prefix(Started(proc.Length), between, trace);
        TakenBetween(call.before, between, trace, call.slot);
      }
    }

    /** etl_kill: give the slot back in any case, even one that is no longer its own. */
    method Kill(c: nat, alive: bool) returns (ghost acts: seq<Step>)
      requires Valid() && Calling(c)
      modifies this, proc
      ensures Valid() && c !in clients && forall step :: step in acts ==> step.Detach?
      ensures Did(old(trace), trace, c, acts + ([BeginKill(c)] + [Step.Release(c)]))
      ensures Unharmed() ==> !old(Stale(Now(), c))
    {
      acts := [];
      ghost var before := trace;
      if alive { acts := DetachAll(c); }
      ghost var between := trace;
      Leave(c);
      DidAll(before, between, trace, c, acts, [BeginKill(c)] + [Step.Release(c)]);
    }

    /** The second part of et_kill. */
    method Leave(c: nat)
      requires Valid() && Calling(c)
      modifies this, proc
      ensures Valid() && c !in clients && Did(old(trace), trace, c, [BeginKill(c)] + [Step.Release(c)])
      ensures Unharmed() ==> old(Unharmed()) && !old(Stale(Now(), c))
    {
      ghost var call := Begin(c);
      MineTurn(BeginKill(c), call, c, []);
      assert [] + [BeginKill(c)] == [BeginKill(c)];
      GiveBack(call, c, [BeginKill(c)]);
      if Unharmed() { Prefix(Started(proc.Length), call.before, trace); }
    }
  }

  /** What may have happened to a client while it did nothing: nothing but, in a table that
      is right, that the monitor took its slot because its heart had stopped. */
  ghost predicate Left(start: State, s: State, before: seq<Step>, t: State, now: seq<Step>, c: nat) {
    && Shaped(start) && PossibleRun(start, now) && Run(start, now) == t && Shaped(s)
    && |t.proc| == |s.proc| && Did(before, now, c, [])
    && (c in t.clients <==> c in s.clients)
    && (c in s.clients ==> t.clients[c] == s.clients[c] && (AlwaysSound(start, now) ==> Spared(s, before, t, now, c)))
  }

  predicate Spared(s: State, before: seq<Step>, t: State, now: seq<Step>, c: nat)
    requires Shaped(s) && Shaped(t) && c in s.clients && |t.proc| == |s.proc| && before <= now
    requires c in t.clients && t.clients[c] == s.clients[c]
  {
    if Stale(s, c) then Stale(t, c)
    else Same(s, t, c) || (!s.clients[c].heart && Stale(t, c) && Taken(before, now, s.clients[c].slot))
  }

  lemma LeftStep(start: State, s: State, before: seq<Step>, t: State, now: seq<Step>, step: Step, c: nat)
    requires Sound(start) && Left(start, s, before, t, now, c) && Possible(t, step) && !By(step, c)
    ensures Left(start, s, before, Next(t, step), now + [step], c)
  {
    Append(start, now, step);
    ActsAppend(now, step, c);
    var after := now + [step];
    assert before <= after && after[..|now|] == now && after[|before|..] == now[|before|..] + [step];
    if c in s.clients && AlwaysSound(start, after) {
      SoundNow(start, now);
      StepKeepsSoundIff(t, step);
      if Stale(t, c) {
        StaleStep(t, step, c);
      } else {
        OthersLeaveMine(t, step, c);
      }
    }
  }
}
