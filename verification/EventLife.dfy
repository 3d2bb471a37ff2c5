/** The life of events in one ET system, shared by any number of attachments.

    A call such as et_events_new is not atomic: it reads events from a station
    under the list's lock, makes temp buffers under the system's lock, and only
    then updates its counters. The machine below takes those pieces as its steps,
    so that a run interleaves the calls of all attachments and the work of the
    conductor threads freely. An event pointer is the event's index in shared
    memory. Station 0 is GrandCentral. */
module EventLife {
  import opened EventLists

  datatype Event = Event(owner: int, used: bool, temp: bool, high: bool, length: nat, memsize: nat)

  /** The four counters of an attachment, and what its calls in progress have not
      yet credited: events read, events written, and events read by a call that
      then failed. */
  datatype Attachment = Attachment(
    stat: nat,
    make: nat, get: nat, put: nat, dump: nat,
    reading: nat, writing: nat, lost: nat)

  datatype State = State(
    eventSize: nat,
    maxTemps: nat,               // config.ntemps
    ev: seq<Event>,
    lists: seq<seq<nat>>,        // per station: input list, output list, conductor's hands
    att: seq<Attachment>,
    ntemps: int,
    home: seq<nat>,              // history: the list an event was last put into
    raw: set<nat>,               // history: events read from GrandCentral, not re-initialised
    cleared: set<nat>,           // history: events in hand that ntemps counts no longer
    live: set<nat>,              // events whose temp file exists
    charged: set<nat>,           // history: temp events counted in ntemps
    reserved: multiset<nat>,     // per attachment: temp events counted before their file exists
    settling: multiset<nat>,     // per attachment: temp events dumped, ntemps not yet lowered
    leaked: nat)                 // temp events counted whose file could not be made

  function In(station: nat): nat { 3 * station }
  function Out(station: nat): nat { 3 * station + 1 }
  function Hands(station: nat): nat { 3 * station + 2 }

  datatype Step =
    | Read(a: nat, station: nat, k: nat)
    | Reserve(a: nat)
    | TempMade(a: nat, e: nat, size: nat)
    | TempNotMade(a: nat, e: nat, gone: bool)  // gone: but a file left over is removed
    | Normal(a: nat, e: nat, size: nat)
    | CreditMake(a: nat, k: nat)
    | CreditGet(a: nat, k: nat)
    | Abandon(a: nat, k: nat)
    | Age(a: nat, e: nat, used: bool)
    | Write(a: nat, es: seq<nat>)
    | CreditPut(a: nat, k: nat)
    | TempRemoved(a: nat, e: nat)
    | Dump(a: nat, es: seq<nat>)
    | Settle(a: nat, k: nat)
    | CreditDump(a: nat, k: nat)
    | Grab(station: nat)
    | Deliver(station: nat, to: nat, es: seq<nat>)
    | Clear(station: nat, kept: set<nat>)      // kept: the files that cannot be removed
    | Recycle(station: nat)

  /** Who takes a step: an attachment, or the system's conductor threads. */
  function Actor(step: Step): int {
    if step.Grab? || step.Deliver? || step.Clear? || step.Recycle? then ET_SYS else step.a
  }

  /** The steps of attachments that take events out of lists or put them in. */
  predicate Moves(step: Step) { step.Read? || step.Write? || step.Dump? }

  // ----- moving events -----

  function Owners(ev: seq<Event>, es: seq<nat>, owner: int): (r: seq<Event>)
    ensures |r| == |ev|
  {
    seq(|ev|, i requires 0 <= i < |ev| => if i in es then ev[i].(owner := owner) else ev[i])
  }

  function Homes(home: seq<nat>, es: seq<nat>, l: nat): (r: seq<nat>)
    ensures |r| == |home|
  {
    seq(|home|, i requires 0 <= i < |home| => if i in es then l else home[i])
  }

  function Highs(ev: seq<Event>): seq<bool> {
    seq(|ev|, i requires 0 <= i < |ev| => ev[i].high)
  }

  function Elements(es: seq<nat>): set<nat> { set e | e in es }

  function Without(s: seq<nat>, es: seq<nat>): seq<nat> {
    if s == [] then []
    else Without(s[..|s| - 1], es) + if s[|s| - 1] in es then [] else [s[|s| - 1]]
  }

  /** et_init_event_: everything but the owner (and the group) starts afresh. */
  function Fresh(e: Event, temp: bool, length: nat, memsize: nat): Event {
    Event(e.owner, false, temp, false, length, memsize)
  }

  predicate AllOwnedBy(s: State, es: seq<nat>, owner: int) {
    forall i :: 0 <= i < |es| ==> es[i] < |s.ev| && s.ev[es[i]].owner == owner
  }

  predicate Shape(s: State) {
    && |s.lists| % 3 == 0 && |s.lists| > 0
    && |s.home| == |s.ev|
    && forall a :: 0 <= a < |s.att| ==> Hands(s.att[a].stat) < |s.lists|
  }

  predicate CanRead(s: State, a: nat, station: nat, k: nat) {
    a < |s.att| && Hands(station) < |s.lists| && 0 < k <= |s.lists[In(station)]|
  }

  predicate CanDeliver(s: State, station: nat, to: nat, es: seq<nat>) {
    && Hands(station) < |s.lists| && Hands(to) < |s.lists| && to != 0
    && Distinct(es) && forall i :: 0 <= i < |es| ==> es[i] in s.lists[Hands(station)] && es[i] !in s.cleared
  }

  predicate CanRecycle(s: State, station: nat) {
    Hands(station) < |s.lists| && Elements(s.lists[Hands(station)]) <= s.cleared
  }

  predicate Owns(s: State, a: nat, e: nat) { e < |s.ev| && s.ev[e].owner == a }

  /** What a caller must see to: no event is named twice, and an event that was read
      but never initialised does not carry the temp flag of an earlier life. */
  predicate CanReturn(s: State, a: nat, es: seq<nat>) {
    a < |s.att| && AllOwnedBy(s, es, a) && Distinct(es) && NoStaleTemps(s, es)
  }

  predicate NoStaleTemps(s: State, es: seq<nat>) {
    forall i :: 0 <= i < |es| && es[i] in s.raw && es[i] < |s.ev| ==> !s.ev[es[i]].temp
  }

  predicate Enabled(s: State, step: Step)
    requires Shape(s)
  {
    match step
    case Read(a, station, k) => CanRead(s, a, station, k)
    case Reserve(a) => s.ntemps < s.maxTemps
    case TempMade(a, e, size) => s.reserved[a] > 0 && e in s.raw && Owns(s, a, e) && size > s.eventSize
    case TempNotMade(a, e, gone) => s.reserved[a] > 0 && e in s.raw && Owns(s, a, e)
    case Normal(a, e, size) => e in s.raw && Owns(s, a, e) && size <= s.eventSize
    case CreditMake(a, k) => a < |s.att| && k <= s.att[a].reading
    case CreditGet(a, k) => a < |s.att| && k <= s.att[a].reading
    case Abandon(a, k) => a < |s.att| && k <= s.att[a].reading
    case Age(a, e, used) => Owns(s, a, e)
    case Write(a, es) => CanReturn(s, a, es)
    case CreditPut(a, k) => a < |s.att| && k <= s.att[a].writing
    case TempRemoved(a, e) => e in s.live && Owns(s, a, e)
    case Dump(a, es) => CanReturn(s, a, es) && TempsOf(s.ev, es) !! s.live
    case Settle(a, k) => k <= s.settling[a]
    case CreditDump(a, k) => a < |s.att| && k <= s.att[a].writing
    case Grab(station) => Hands(station) < |s.lists| && s.lists[Hands(station)] == []
    case Deliver(station, to, es) => CanDeliver(s, station, to, es)
    case Clear(station, kept) => Hands(station) < |s.lists| && Elements(s.lists[Hands(station)]) !! s.cleared
    case Recycle(station) => CanRecycle(s, station)
  }

  /** The events of es leave wherever they were for list l. */
  function Placed(s: State, es: seq<nat>, l: nat, contents: seq<nat>): State
    requires l < |s.lists|
  {
    s.(ev := Owners(s.ev, es, ET_SYS), home := Homes(s.home, es, l), lists := s.lists[l := contents])
  }

  function Apply(s: State, step: Step): (t: State)
    requires Shape(s) && Enabled(s, step)
    ensures Shape(t) && |t.ev| == |s.ev| && |t.att| == |s.att| && |t.lists| == |s.lists|
  {
    if Actor(step) == ET_SYS then AfterConductor(s, step)
    else if Moves(step) then AfterMove(s, step)
    else AfterQuiet(s, step)
  }

  function AfterMove(s: State, step: Step): (t: State)
    requires Shape(s) && Enabled(s, step) && Moves(step)
    ensures Shape(t) && |t.ev| == |s.ev| && |t.att| == |s.att| && |t.lists| == |s.lists|
  {
    match step
    case Read(a, station, k) => AfterRead(s, a, station, k)
    case Write(a, es) => AfterWrite(s, a, es)
    case Dump(a, es) => AfterDump(s, a, es)
  }

  function AfterConductor(s: State, step: Step): (t: State)
    requires Shape(s) && Enabled(s, step) && Actor(step) == ET_SYS
    ensures Shape(t) && |t.ev| == |s.ev| && t.att == s.att && |t.lists| == |s.lists|
  {
    match step
    case Grab(station) =>
      var es := s.lists[Out(station)];
      s.(home := Homes(s.home, es, Hands(station)), lists := s.lists[Out(station) := []][Hands(station) := es])
    case Deliver(station, to, es) => AfterDeliver(s, station, to, es)
    case Clear(station, kept) => AfterClear(s, station, kept)
    case Recycle(station) => AfterRecycle(s, station)
  }

  /** The steps that move no events. */
  function AfterQuiet(s: State, step: Step): (t: State)
    requires Shape(s) && Enabled(s, step) && Actor(step) != ET_SYS && !Moves(step)
    ensures Shape(t) && |t.ev| == |s.ev| && |t.att| == |s.att| && |t.lists| == |s.lists|
  {
    match step
    case Reserve(a) => s.(ntemps := s.ntemps + 1, reserved := s.reserved[a := s.reserved[a] + 1])
    case TempMade(a, e, size) =>
      s.(ev := s.ev[e := Fresh(s.ev[e], true, size, size)], raw := s.raw - {e},
         live := s.live + {e}, charged := s.charged + {e}, reserved := s.reserved[a := s.reserved[a] - 1])
    case TempNotMade(a, e, gone) =>
      s.(reserved := s.reserved[a := s.reserved[a] - 1], leaked := s.leaked + 1,
         live := if gone then s.live - {e} else s.live)
    case Normal(a, e, size) => s.(ev := s.ev[e := Fresh(s.ev[e], false, size, s.eventSize)], raw := s.raw - {e})
    case CreditMake(a, k) => Counting(s, a, s.att[a].(reading := s.att[a].reading - k, make := s.att[a].make + k))
    case CreditGet(a, k) => Counting(s, a, s.att[a].(reading := s.att[a].reading - k, get := s.att[a].get + k))
    case Abandon(a, k) => Counting(s, a, s.att[a].(reading := s.att[a].reading - k, lost := s.att[a].lost + k))
    case Age(a, e, used) => s.(ev := s.ev[e := s.ev[e].(used := used)])
    case CreditPut(a, k) => Counting(s, a, s.att[a].(writing := s.att[a].writing - k, put := s.att[a].put + k))
    case TempRemoved(a, e) => s.(live := s.live - {e})
    case Settle(a, k) => s.(settling := s.settling[a := s.settling[a] - k], ntemps := s.ntemps - k)
    case CreditDump(a, k) => Counting(s, a, s.att[a].(writing := s.att[a].writing - k, dump := s.att[a].dump + k))
  }

  function Counting(s: State, a: nat, c: Attachment): (t: State)
    requires Shape(s) && a < |s.att| && c.stat == s.att[a].stat
    ensures Shape(t)
  { s.(att := s.att[a := c]) }

  /** et_station_nwrite: an attachment's events join its station's output list. */
  function AfterWrite(s: State, a: nat, es: seq<nat>): State
    requires Shape(s) && a < |s.att|
  {
    var l := Out(s.att[a].stat);
    Noted(Placed(s, es, l, ByPriority(s.lists[l] + es, Highs(s.ev))), a, es)
  }

  /** The events es of attachment a are written, but not credited. */
  function Noted(s: State, a: nat, es: seq<nat>): State
    requires a < |s.att|
  { s.(att := s.att[a := s.att[a].(writing := s.att[a].writing + |es|)], raw := s.raw - Elements(es)) }

  /** et_station_ndump: an attachment's events go straight back to GrandCentral. */
  function AfterDump(s: State, a: nat, es: seq<nat>): State
    requires Shape(s) && a < |s.att|
  {
    Placed(s, es, 0, s.lists[0] + es)
      .(att := s.att[a := s.att[a].(writing := s.att[a].writing + |es|)], raw := s.raw - Elements(es),
        charged := s.charged - Elements(es),
        settling := s.settling[a := s.settling[a] + |TempsOf(s.ev, es)|])
  }

  /** et_station_nread: the first k events of an input list go to an attachment. */
  function AfterRead(s: State, a: nat, station: nat, k: nat): State
    requires Shape(s) && CanRead(s, a, station, k)
  {
    var l, es := In(station), s.lists[In(station)][..k];
    s.(lists := s.lists[l := s.lists[l][k..]],
       ev := Owners(s.ev, es, a),
       raw := if station == 0 then s.raw + Elements(es) else s.raw,
       att := s.att[a := s.att[a].(reading := s.att[a].reading + k)])
  }

  /** et_conductor: some of the events in hand go to another station's input list. */
  function AfterDeliver(s: State, station: nat, to: nat, es: seq<nat>): State
    requires Shape(s) && CanDeliver(s, station, to, es)
  {
    Placed(s.(lists := s.lists[Hands(station) := Without(s.lists[Hands(station)], es)]),
           es, In(to), ByPriority(s.lists[In(to)] + es, Highs(s.ev)))
  }

  /** et_conductor, under the system's lock: before what is left in hand goes to
      GrandCentral, its temp files are removed and no longer counted. Whether a file can
      be removed makes no difference to that. The events keep their temp flag. */
  function AfterClear(s: State, station: nat, kept: set<nat>): State
    requires Shape(s) && Hands(station) < |s.lists|
  {
    var es := s.lists[Hands(station)];
    s.(live := s.live - (TempsOf(s.ev, es) - kept), charged := s.charged - Elements(es),
       cleared := s.cleared + Elements(es), ntemps := s.ntemps - |TempsOf(s.ev, es)|)
  }

  /** et_conductor, under the lock of GrandCentral's list. */
  function AfterRecycle(s: State, station: nat): State
    requires Shape(s) && Hands(station) < |s.lists|
  {
    var es := s.lists[Hands(station)];
    Placed(s.(lists := s.lists[Hands(station) := []]), es, 0, s.lists[0] + es).(cleared := s.cleared - Elements(es))
  }

  function TempsOf(ev: seq<Event>, es: seq<nat>): set<nat> { set e | e in es && e < |ev| && ev[e].temp }

  // ----- the invariants -----

  /** Every event is in exactly one place: in one list, where the system owns it,
      or with one attachment. */
  ghost predicate Places(s: State)
    requires Shape(s)
  {
    && (forall l :: 0 <= l < |s.lists| ==> ListHolds(s, l, s.lists[l]))
    && (forall e :: 0 <= e < |s.ev| ==>
          && ET_SYS <= s.ev[e].owner < |s.att|
          && (s.ev[e].owner == ET_SYS ==> s.home[e] < |s.lists| && e in s.lists[s.home[e]]))
  }

  ghost predicate ListHolds(s: State, l: nat, list: seq<nat>)
    requires Shape(s)
  {
    && Distinct(list)
    && forall i :: 0 <= i < |list| ==> list[i] < |s.ev| && s.ev[list[i]].owner == ET_SYS && s.home[list[i]] == l
  }

  function OwnedBy(ev: seq<Event>, a: int): set<nat> { set e: nat | e < |ev| && ev[e].owner == a }

  /** What an attachment owns is what its counters say, up to its calls in progress. */
  ghost predicate Counted(s: State) {
    forall a :: 0 <= a < |s.att| ==>
      var c := s.att[a];
      |OwnedBy(s.ev, a)| == c.make + c.get - c.put - c.dump + c.reading - c.writing + c.lost
  }

  /** Exactly the events counted as temps carry the flag, among those that are
      initialised and not being recycled. */
  predicate Flagged(s: State, e: nat)
    requires Shape(s)
  {
    && (e in s.charged || e in s.raw || e in s.cleared ==> e < |s.ev|)
    && (e in s.charged ==> e !in s.raw && e !in s.lists[0] && e !in s.cleared)
    && (e in s.raw ==> s.ev[e].owner != ET_SYS)
    && (e in s.cleared ==> s.ev[e].owner == ET_SYS && s.home[e] % 3 == 2)
    && (e < |s.ev| && e !in s.raw && e !in s.lists[0] && e !in s.cleared ==> (s.ev[e].temp <==> e in s.charged))
  }

  ghost predicate FlagsRight(s: State)
    requires Shape(s)
  { forall e: nat :: Flagged(s, e) }

  /** ntemps counts the temp events, those about to be, and those it will never forget. */
  ghost predicate Temps(s: State)
    requires Shape(s)
  {
    && FlagsRight(s)
    && s.ntemps == |s.charged| + |s.reserved| + |s.settling| + s.leaked
    && s.ntemps <= s.maxTemps
  }

  ghost predicate Inv(s: State) { Shape(s) && Places(s) && Counted(s) && Temps(s) }

  // ----- the invariants are kept -----

  lemma ElementsCount(es: seq<nat>)
    requires Distinct(es)
    ensures |Elements(es)| == |es|
  {
    if es != [] {
      var front, e := es[..|es| - 1], es[|es| - 1];
      ElementsCount(front);
      assert Elements(es) == Elements(front) + {e};
    }
  }

  /** Events that change owner are counted out at one side and in at the other. */
  lemma OwnersCounted(ev: seq<Event>, es: seq<nat>, from: int, to: int)
    requires Distinct(es) && from != to
    requires forall i :: 0 <= i < |es| ==> es[i] < |ev| && ev[es[i]].owner == from
    ensures |OwnedBy(Owners(ev, es, to), to)| == |OwnedBy(ev, to)| + |es|
    ensures |OwnedBy(Owners(ev, es, to), from)| == |OwnedBy(ev, from)| - |es|
    ensures forall a :: a != from && a != to ==> OwnedBy(Owners(ev, es, to), a) == OwnedBy(ev, a)
  {
    ElementsCount(es);
    OwnersMoved(ev, es, from, to);
    assert OwnedBy(ev, to) !! Elements(es) && OwnedBy(Owners(ev, es, to), from) !! Elements(es);
  }

  lemma OwnersMoved(ev: seq<Event>, es: seq<nat>, from: int, to: int)
    requires from != to && forall i :: 0 <= i < |es| ==> es[i] < |ev| && ev[es[i]].owner == from
    ensures OwnedBy(Owners(ev, es, to), to) == OwnedBy(ev, to) + Elements(es)
    ensures OwnedBy(ev, from) == OwnedBy(Owners(ev, es, to), from) + Elements(es)
    ensures forall a :: a != from && a != to ==> OwnedBy(Owners(ev, es, to), a) == OwnedBy(ev, a)
  {
    forall e: nat | e < |ev| ensures Owners(ev, es, to)[e].owner == if e in es then to else ev[e].owner { }
  }

  lemma SameOwners(ev: seq<Event>, ev': seq<Event>)
    requires |ev| == |ev'| && forall i :: 0 <= i < |ev| ==> ev'[i].owner == ev[i].owner
    ensures forall a :: OwnedBy(ev', a) == OwnedBy(ev, a)
  {
  }

  lemma ReadKeepsCounts(s: State, a: nat, station: nat, k: nat)
    requires Inv(s) && CanRead(s, a, station, k)
    ensures Counted(AfterRead(s, a, station, k))
  {
    assert ListHolds(s, In(station), s.lists[In(station)]);
    OwnersCounted(s.ev, s.lists[In(station)][..k], ET_SYS, a);
  }

  lemma ReturnKeepsCounts(s: State, a: nat, es: seq<nat>)
    requires Inv(s) && CanReturn(s, a, es)
    ensures Counted(AfterWrite(s, a, es)) && Counted(AfterDump(s, a, es))
  {
    OwnersCounted(s.ev, es, a, ET_SYS);
  }

  lemma ConductorKeepsCounts(s: State, step: Step)
    requires Inv(s) && Enabled(s, step) && Actor(step) == ET_SYS
    ensures Counted(Apply(s, step))
  {
    assert ListHolds(s, Hands(step.station), s.lists[Hands(step.station)]);
    SameOwners(s.ev, Apply(s, step).ev);
  }

  lemma QuietStepKeepsCounts(s: State, step: Step)
    requires Inv(s) && Enabled(s, step) && Actor(step) != ET_SYS && !Moves(step)
    ensures Counted(Apply(s, step))
  {
    SameOwners(s.ev, Apply(s, step).ev);
  }

  lemma StepKeepsCounts(s: State, step: Step)
    requires Inv(s) && Enabled(s, step)
    ensures Counted(Apply(s, step))
  {
    if Actor(step) == ET_SYS {
      ConductorKeepsCounts(s, step);
    } else if !Moves(step) {
      QuietStepKeepsCounts(s, step);
    } else if step.Read? {
      ReadKeepsCounts(s, step.a, step.station, step.k);
    } else {
      ReturnKeepsCounts(s, step.a, step.es);
    }
  }

  lemma {:induction false} WithoutHolds(s: seq<nat>, es: seq<nat>)
    ensures forall e :: e in Without(s, es) <==> e in s && e !in es
    ensures Distinct(s) ==> Distinct(Without(s, es))
  {
    if s != [] {
      var front, e := s[..|s| - 1], s[|s| - 1];
      WithoutHolds(front, es);
      assert s == front + [e];
    }
  }

  lemma {:induction false} DistinctIffSingle(s: seq<nat>)
    ensures Distinct(s) <==> forall e :: multiset(s)[e] <= 1
  {
    if s != [] {
      var front, x := s[..|s| - 1], s[|s| - 1];
      DistinctIffSingle(front);
      assert s == front + [x];
      assert Distinct(s) <==> Distinct(front) && x !in front;
      assert multiset(s)[x] == multiset(front)[x] + 1;
      assert forall e :: e != x ==> multiset(s)[e] == multiset(front)[e];
    }
  }

  lemma DistinctAppend(s: seq<nat>, t: seq<nat>, u: seq<nat>)
    requires Distinct(s) && Distinct(t) && forall e :: !(e in s && e in t)
    requires multiset(u) == multiset(s + t)
    ensures Distinct(u) && forall e :: e in u <==> e in s || e in t
  {
    assert multiset(s + t) == multiset(s) + multiset(t);
    forall e
      ensures multiset(u)[e] <= 1
      ensures e in u <==> e in s || e in t
    {
      assert e in u <==> e in multiset(u);
      assert e in s <==> e in multiset(s);
      assert e in t <==> e in multiset(t);
      DistinctIffSingle(s);
      DistinctIffSingle(t);
      assert multiset(s)[e] <= 1 && multiset(t)[e] <= 1;
    }
    DistinctIffSingle(u);
  }

  /** The list that receives events. */
  lemma ReceivingListHolds(s: State, t: State, es: seq<nat>, l: nat, contents: seq<nat>)
    requires Shape(s) && l < |s.lists| && Distinct(es) && ListHolds(s, l, s.lists[l])
    requires forall i :: 0 <= i < |es| ==> es[i] < |s.ev| && es[i] !in s.lists[l]
    requires multiset(contents) == multiset(s.lists[l] + es)
    requires t == Placed(s, es, l, contents)
    ensures Shape(t) && ListHolds(t, l, contents) && forall e :: e in contents <==> e in s.lists[l] || e in es
  {
    DistinctAppend(s.lists[l], es, contents);
    forall i | 0 <= i < |contents|
      ensures contents[i] < |t.ev| && t.ev[contents[i]].owner == ET_SYS && t.home[contents[i]] == l
    {
      assert contents[i] in contents;
    }
  }

  /** Events that are in no list go into one list. */
  lemma PlacingKeepsPlaces(s: State, t: State, es: seq<nat>, l: nat, contents: seq<nat>)
    requires Shape(s) && l < |s.lists| && Distinct(es)
    requires forall k :: 0 <= k < |s.lists| ==> ListHolds(s, k, s.lists[k])
    requires forall k, i :: 0 <= k < |s.lists| && 0 <= i < |es| ==> es[i] !in s.lists[k]
    requires forall i :: 0 <= i < |es| ==> es[i] < |s.ev|
    requires forall e :: 0 <= e < |s.ev| && e !in es ==>
               && ET_SYS <= s.ev[e].owner < |s.att|
               && (s.ev[e].owner == ET_SYS ==> s.home[e] < |s.lists| && e in s.lists[s.home[e]])
    requires multiset(contents) == multiset(s.lists[l] + es)
    requires t == Placed(s, es, l, contents)
    ensures Shape(t) && Places(t)
  {
    assert ListHolds(s, l, s.lists[l]);
    ReceivingListHolds(s, t, es, l, contents);
    forall k | 0 <= k < |t.lists| ensures ListHolds(t, k, t.lists[k]) {
      if k != l {
        assert ListHolds(s, k, s.lists[k]);
        forall i | 0 <= i < |t.lists[k]|
          ensures t.lists[k][i] < |t.ev| && t.ev[t.lists[k][i]].owner == ET_SYS && t.home[t.lists[k][i]] == k
        {
          assert t.lists[k][i] in s.lists[k];
        }
      }
    }
  }

  /** Owned events are in no list. */
  lemma OwnedNotListed(s: State, es: seq<nat>, a: nat)
    requires Shape(s) && Places(s) && AllOwnedBy(s, es, a)
    ensures forall k, i :: 0 <= k < |s.lists| && 0 <= i < |es| ==> es[i] !in s.lists[k]
  {
    forall k, i | 0 <= k < |s.lists| && 0 <= i < |es| ensures es[i] !in s.lists[k] {
      assert ListHolds(s, k, s.lists[k]);
    }
  }

  lemma ReadKeepsList(s: State, t: State, a: nat, station: nat, k: nat, m: nat)
    requires Shape(s) && Places(s) && CanRead(s, a, station, k) && t == AfterRead(s, a, station, k)
    requires m < |s.lists| && Shape(t)
    ensures ListHolds(t, m, t.lists[m])
  {
    var l := In(station);
    var es := s.lists[l][..k];
    assert ListHolds(s, l, s.lists[l]) && ListHolds(s, m, s.lists[m]);
    forall i | 0 <= i < |t.lists[m]|
      ensures t.lists[m][i] < |s.ev| && t.lists[m][i] !in es && s.ev[t.lists[m][i]].owner == ET_SYS && s.home[t.lists[m][i]] == m
    {
      if m == l {
        assert t.lists[m][i] == s.lists[l][k + i];
      }
    }
  }

  lemma ReadKeepsPlace(s: State, t: State, a: nat, station: nat, k: nat, e: nat)
    requires Shape(s) && Places(s) && CanRead(s, a, station, k) && t == AfterRead(s, a, station, k)
    requires e < |s.ev|
    ensures ET_SYS <= t.ev[e].owner < |t.att|
    ensures t.ev[e].owner == ET_SYS ==> t.home[e] < |t.lists| && e in t.lists[t.home[e]]
  {
    var l := In(station);
    var es := s.lists[l][..k];
    assert t.ev == Owners(s.ev, es, a) && t.home == s.home;
    if e !in es && s.ev[e].owner == ET_SYS {
      StaysListed(s.lists[s.home[e]], if s.home[e] == l then k else 0, e);
    }
  }

  lemma StaysListed(list: seq<nat>, k: nat, e: nat)
    requires k <= |list| && e in list && e !in list[..k]
    ensures e in list[k..]
  {
    var i :| 0 <= i < |list| && list[i] == e;
    forall j | 0 <= j < k ensures list[j] != e { assert list[j] in list[..k]; }
    assert list[k..][i - k] == e;
  }

  lemma ReadKeepsPlaces(s: State, t: State, a: nat, station: nat, k: nat)
    requires Shape(s) && Places(s) && CanRead(s, a, station, k) && t == AfterRead(s, a, station, k)
    ensures Shape(t) && Places(t)
  {
    forall m | 0 <= m < |t.lists| ensures ListHolds(t, m, t.lists[m]) { ReadKeepsList(s, t, a, station, k, m); }
    forall e | 0 <= e < |t.ev|
      ensures ET_SYS <= t.ev[e].owner < |t.att|
      ensures t.ev[e].owner == ET_SYS ==> t.home[e] < |t.lists| && e in t.lists[t.home[e]]
    {
      ReadKeepsPlace(s, t, a, station, k, e);
    }
  }

  lemma GrabKeepsPlaces(s: State, t: State, station: nat)
    requires Shape(s) && Places(s) && Enabled(s, Grab(station)) && t == Apply(s, Grab(station))
    ensures Shape(t) && Places(t)
  {
    assert ListHolds(s, Out(station), s.lists[Out(station)]);
    forall m | 0 <= m < |t.lists| ensures ListHolds(t, m, t.lists[m]) {
      assert ListHolds(s, m, s.lists[m]);
    }
  }

  /** The conductor lets go of some of the events in its hands. */
  lemma LetGo(s: State, t: State, h: nat, es: seq<nat>)
    requires Shape(s) && Places(s) && h < |s.lists| && Distinct(es)
    requires forall i :: 0 <= i < |es| ==> es[i] in s.lists[h]
    requires t.ev == s.ev && t.home == s.home && t.att == s.att && |t.lists| == |s.lists|
    requires t.lists[h] == Without(s.lists[h], es) && forall k :: 0 <= k < |s.lists| && k != h ==> t.lists[k] == s.lists[k]
    ensures Shape(t) && forall k :: 0 <= k < |t.lists| ==> ListHolds(t, k, t.lists[k])
    ensures forall k, i :: 0 <= k < |t.lists| && 0 <= i < |es| ==> es[i] !in t.lists[k]
    ensures forall i :: 0 <= i < |es| ==> es[i] < |t.ev| && t.ev[es[i]].owner == ET_SYS
    ensures forall e :: 0 <= e < |t.ev| && e !in es && t.ev[e].owner == ET_SYS ==> e in t.lists[t.home[e]]
  {
    WithoutHolds(s.lists[h], es);
    assert ListHolds(s, h, s.lists[h]);
    forall k | 0 <= k < |t.lists|
      ensures ListHolds(t, k, t.lists[k]) && forall i :: 0 <= i < |es| ==> es[i] !in t.lists[k]
    {
      assert ListHolds(s, k, s.lists[k]);
      assert forall i :: 0 <= i < |t.lists[k]| ==> t.lists[k][i] in s.lists[k];
    }
  }

  /** Places speaks only of owners, homes and lists. */
  lemma SamePlaces(s: State, t: State)
    requires Shape(s) && Places(s)
    requires s.lists == t.lists && s.home == t.home && |s.ev| == |t.ev| && |s.att| == |t.att|
    requires forall e :: 0 <= e < |s.ev| ==> t.ev[e].owner == s.ev[e].owner
    requires forall a :: 0 <= a < |s.att| ==> t.att[a].stat == s.att[a].stat
    ensures Shape(t) && Places(t)
  {
    forall k | 0 <= k < |t.lists| ensures ListHolds(t, k, t.lists[k]) { assert ListHolds(s, k, s.lists[k]); }
  }

  /** An attachment returns events to a list. */
  lemma ReturnKeepsPlaces(s: State, a: nat, es: seq<nat>, l: nat, contents: seq<nat>)
    requires Shape(s) && Places(s) && AllOwnedBy(s, es, a) && Distinct(es) && l < |s.lists|
    requires multiset(contents) == multiset(s.lists[l] + es)
    ensures Shape(Placed(s, es, l, contents)) && Places(Placed(s, es, l, contents))
  {
    OwnedNotListed(s, es, a);
    PlacingKeepsPlaces(s, Placed(s, es, l, contents), es, l, contents);
  }

  /** A conductor moves events from its hands to a list. */
  lemma HandOverKeepsPlaces(s: State, u: State, h: nat, es: seq<nat>, l: nat, contents: seq<nat>)
    requires Shape(s) && Places(s) && h < |s.lists| && l < |s.lists| && l != h && Distinct(es)
    requires forall i :: 0 <= i < |es| ==> es[i] in s.lists[h]
    requires u == s.(lists := s.lists[h := Without(s.lists[h], es)])
    requires multiset(contents) == multiset(s.lists[l] + es)
    ensures Shape(Placed(u, es, l, contents)) && Places(Placed(u, es, l, contents))
  {
    LetGo(s, u, h, es);
    PlacingKeepsPlaces(u, Placed(u, es, l, contents), es, l, contents);
  }

  lemma WithoutAll(es: seq<nat>)
    ensures Without(es, es) == []
  {
    WithoutHolds(es, es);
    if Without(es, es) != [] { assert Without(es, es)[0] in Without(es, es); }
  }

  lemma RecycleKeepsPlaces(s: State, t: State, station: nat)
    requires Shape(s) && Places(s) && Hands(station) < |s.lists| && t == AfterRecycle(s, station)
    ensures Shape(t) && Places(t)
  {
    var h := Hands(station);
    var es := s.lists[h];
    var u := s.(lists := s.lists[h := []]);
    WithoutAll(es);
    assert ListHolds(s, h, es);
    HandOverKeepsPlaces(s, u, h, es, 0, s.lists[0] + es);
    SamePlaces(Placed(u, es, 0, s.lists[0] + es), t);
  }

  lemma DeliverKeepsPlaces(s: State, t: State, station: nat, to: nat, es: seq<nat>)
    requires Shape(s) && Places(s) && CanDeliver(s, station, to, es) && t == AfterDeliver(s, station, to, es)
    ensures Shape(t) && Places(t)
  {
    var h, all := Hands(station), s.lists[In(to)] + es;
    var contents := ByPriority(all, Highs(s.ev));
    ByPriorityPermutes(all, Highs(s.ev));
    HandOverKeepsPlaces(s, s.(lists := s.lists[h := Without(s.lists[h], es)]), h, es, In(to), contents);
  }

  lemma ConductorKeepsPlaces(s: State, step: Step)
    requires Shape(s) && Places(s) && Enabled(s, step) && Actor(step) == ET_SYS
    ensures Places(Apply(s, step))
  {
    var t := Apply(s, step);
    match step {
      case Grab(station) => GrabKeepsPlaces(s, t, station);
      case Clear(_, _) => SamePlaces(s, t);
      case Deliver(station, to, es) => DeliverKeepsPlaces(s, t, station, to, es);
      case Recycle(station) => RecycleKeepsPlaces(s, t, station);
    }
  }

  lemma WriteKeepsPlaces(s: State, a: nat, es: seq<nat>)
    requires Shape(s) && Places(s) && a < |s.att| && AllOwnedBy(s, es, a) && Distinct(es)
    ensures Places(AfterWrite(s, a, es))
  {
    var l := Out(s.att[a].stat);
    var contents := ByPriority(s.lists[l] + es, Highs(s.ev));
    ByPriorityPermutes(s.lists[l] + es, Highs(s.ev));
    ReturnKeepsPlaces(s, a, es, l, contents);
    SamePlaces(Placed(s, es, l, contents), AfterWrite(s, a, es));
  }

  lemma DumpKeepsPlaces(s: State, a: nat, es: seq<nat>)
    requires Shape(s) && Places(s) && a < |s.att| && AllOwnedBy(s, es, a) && Distinct(es)
    ensures Places(AfterDump(s, a, es))
  {
    ReturnKeepsPlaces(s, a, es, 0, s.lists[0] + es);
    SamePlaces(Placed(s, es, 0, s.lists[0] + es), AfterDump(s, a, es));
  }

  lemma StepKeepsPlaces(s: State, step: Step)
    requires Shape(s) && Places(s) && Enabled(s, step)
    ensures Places(Apply(s, step))
  {
    if Actor(step) == ET_SYS {
      ConductorKeepsPlaces(s, step);
    } else if step.Read? {
      ReadKeepsPlaces(s, Apply(s, step), step.a, step.station, step.k);
    } else if step.Write? {
      WriteKeepsPlaces(s, step.a, step.es);
    } else if step.Dump? {
      DumpKeepsPlaces(s, step.a, step.es);
    } else {
      SamePlaces(s, Apply(s, step));
    }
  }

  // ----- temp buffers -----

  /** What reading does to the two sets that FlagsRight excludes. */
  lemma ReadTakes(s: State, t: State, a: nat, station: nat, k: nat, es: seq<nat>, e: nat)
    requires Shape(s) && Places(s) && CanRead(s, a, station, k) && t == AfterRead(s, a, station, k)
    requires es == s.lists[In(station)][..k] && Shape(t)
    ensures e in t.raw <==> e in s.raw || (station == 0 && e in es)
    ensures e in s.lists[0] <==> e in t.lists[0] || (station == 0 && e in es)
    ensures e in es ==> e < |s.ev| && s.ev[e].owner == ET_SYS
    ensures e < |s.ev| && s.ev[e].owner != ET_SYS ==> t.ev[e] == s.ev[e]
    ensures e < |s.ev| ==> t.ev[e].temp == s.ev[e].temp && t.ev[e].owner == if e in es then a else s.ev[e].owner
  {
    var l := In(station);
    assert ListHolds(s, l, s.lists[l]);
    if station == 0 {
      assert s.lists[0] == es + t.lists[0];
      assert e in es + t.lists[0] <==> e in s.lists[0];
    }
  }

  lemma ReadKeepsFlags(s: State, a: nat, station: nat, k: nat)
    requires Shape(s) && Places(s) && FlagsRight(s) && CanRead(s, a, station, k)
    ensures Shape(AfterRead(s, a, station, k)) && FlagsRight(AfterRead(s, a, station, k))
  {
    forall e: nat ensures Flagged(AfterRead(s, a, station, k), e) { ReadKeepsFlag(s, a, station, k, e); }
  }

  lemma ReadKeepsFlag(s: State, a: nat, station: nat, k: nat, e: nat)
    requires Shape(s) && Places(s) && Flagged(s, e) && CanRead(s, a, station, k)
    ensures Shape(AfterRead(s, a, station, k)) && Flagged(AfterRead(s, a, station, k), e)
  {
    var t, es := AfterRead(s, a, station, k), s.lists[In(station)][..k];
    ReadTakes(s, t, a, station, k, es, e);
    assert ListHolds(s, In(station), s.lists[In(station)]);
    FlagAfterRead(s, t, a, station, es, e);
  }

  lemma FlagAfterRead(s: State, t: State, a: nat, station: nat, es: seq<nat>, e: nat)
    requires Shape(s) && Shape(t) && Flagged(s, e) && |t.ev| == |s.ev| && |t.home| == |s.home|
    requires e in t.raw <==> e in s.raw || (station == 0 && e in es)
    requires e in s.lists[0] <==> e in t.lists[0] || (station == 0 && e in es)
    requires e in es ==> e < |s.ev| && s.ev[e].owner == ET_SYS && s.home[e] == In(station)
    requires e < |s.ev| && s.ev[e].owner != ET_SYS ==> t.ev[e] == s.ev[e]
    requires e < |s.ev| ==> t.ev[e].temp == s.ev[e].temp && t.home[e] == s.home[e]
    requires e < |s.ev| ==> t.ev[e].owner == if e in es then a else s.ev[e].owner
    requires t.charged == s.charged && t.cleared == s.cleared
    ensures Flagged(t, e)
  {
  }

  lemma MadeKeepsFlags(s: State, t: State, a: nat, e: nat, temp: bool, length: nat, memsize: nat)
    requires Shape(s) && Places(s) && FlagsRight(s) && e in s.raw && Owns(s, a, e) && Shape(t)
    requires t.lists == s.lists && t.home == s.home && t.raw == s.raw - {e} && t.cleared == s.cleared
    requires t.ev == s.ev[e := Fresh(s.ev[e], temp, length, memsize)]
    requires t.charged == if temp then s.charged + {e} else s.charged
    ensures FlagsRight(t)
  {
    OwnedNotListed(s, [e], a);
    assert [e][0] !in s.lists[0];
    forall x: nat ensures Flagged(t, x) { assert Flagged(s, x); }
  }

  lemma WriteKeepsFlags(s: State, a: nat, es: seq<nat>)
    requires Shape(s) && Places(s) && FlagsRight(s) && CanReturn(s, a, es)
    ensures Shape(AfterWrite(s, a, es)) && FlagsRight(AfterWrite(s, a, es))
  {
    var t := AfterWrite(s, a, es);
    OwnedNotListed(s, es, a);
    assert t.lists[0] == s.lists[0];
    forall e: nat ensures Flagged(t, e) { assert Flagged(s, e); }
  }

  /** The temp events among some that are being recycled are those counted. */
  lemma TempsAreCharged(s: State, es: seq<nat>)
    requires Shape(s) && FlagsRight(s) && NoStaleTemps(s, es)
    requires forall i :: 0 <= i < |es| ==> es[i] < |s.ev| && es[i] !in s.lists[0] && es[i] !in s.cleared
    ensures TempsOf(s.ev, es) == s.charged * Elements(es)
    ensures |s.charged - Elements(es)| == |s.charged| - |TempsOf(s.ev, es)|
  {
    forall e: nat ensures e in TempsOf(s.ev, es) <==> e in s.charged * Elements(es) {
      assert Flagged(s, e);
      if e in es {
        var i :| 0 <= i < |es| && es[i] == e;
        assert es[i] in s.raw ==> !s.ev[e].temp;
      }
    }
    assert s.charged == (s.charged - Elements(es)) + s.charged * Elements(es);
  }

  /** Cleared events are the conductors'. */
  lemma OwnedNotCleared(s: State, es: seq<nat>, a: nat)
    requires Shape(s) && FlagsRight(s) && AllOwnedBy(s, es, a)
    ensures forall i :: 0 <= i < |es| ==> es[i] !in s.cleared
  {
    forall i | 0 <= i < |es| ensures es[i] !in s.cleared { assert Flagged(s, es[i]); }
  }

  lemma DumpKeepsFlags(s: State, a: nat, es: seq<nat>)
    requires Shape(s) && Places(s) && FlagsRight(s) && CanReturn(s, a, es)
    ensures Shape(AfterDump(s, a, es)) && FlagsRight(AfterDump(s, a, es))
    ensures |AfterDump(s, a, es).charged| == |s.charged| - |TempsOf(s.ev, es)|
  {
    var t := AfterDump(s, a, es);
    OwnedNotListed(s, es, a);
    OwnedNotCleared(s, es, a);
    TempsAreCharged(s, es);
    forall e: nat ensures Flagged(t, e) { assert Flagged(s, e); }
  }

  lemma DeliverKeepsFlags(s: State, station: nat, to: nat, es: seq<nat>)
    requires Shape(s) && Places(s) && FlagsRight(s) && CanDeliver(s, station, to, es)
    ensures FlagsRight(AfterDeliver(s, station, to, es))
  {
    var t := AfterDeliver(s, station, to, es);
    assert ListHolds(s, Hands(station), s.lists[Hands(station)]);
    assert t.lists[0] == s.lists[0];
    forall e: nat ensures Flagged(t, e) { assert Flagged(s, e); }
  }

  lemma GrabKeepsFlags(s: State, station: nat)
    requires Shape(s) && Places(s) && FlagsRight(s) && Enabled(s, Grab(station))
    ensures FlagsRight(Apply(s, Grab(station)))
  {
    var t := Apply(s, Grab(station));
    assert ListHolds(s, Out(station), s.lists[Out(station)]);
    assert t.lists[0] == s.lists[0];
    forall e: nat ensures Flagged(t, e) { assert Flagged(s, e); }
  }

  lemma ClearKeepsFlags(s: State, station: nat, kept: set<nat>)
    requires Shape(s) && Places(s) && FlagsRight(s) && Enabled(s, Clear(station, kept))
    ensures FlagsRight(AfterClear(s, station, kept))
    ensures |AfterClear(s, station, kept).charged| == |s.charged| - |TempsOf(s.ev, s.lists[Hands(station)])|
  {
    var h := Hands(station);
    assert ListHolds(s, h, s.lists[h]) && ListHolds(s, 0, s.lists[0]);
    forall i | 0 <= i < |s.lists[h]| ensures s.lists[h][i] !in s.raw { assert Flagged(s, s.lists[h][i]); }
    TempsAreCharged(s, s.lists[h]);
    forall e: nat ensures Flagged(AfterClear(s, station, kept), e) {
      assert Flagged(s, e);
      ClearKeepsFlag(s, station, kept, e);
    }
  }

  lemma ClearKeepsFlag(s: State, station: nat, kept: set<nat>, e: nat)
    requires Shape(s) && Places(s) && Flagged(s, e) && Hands(station) < |s.lists|
    ensures Flagged(AfterClear(s, station, kept), e)
  {
    var h := Hands(station);
    assert ListHolds(s, h, s.lists[h]) && ListHolds(s, 0, s.lists[0]);
  }

  lemma RecycleKeepsFlags(s: State, station: nat)
    requires Shape(s) && Places(s) && FlagsRight(s) && CanRecycle(s, station)
    ensures FlagsRight(AfterRecycle(s, station))
  {
    var t, h := AfterRecycle(s, station), Hands(station);
    var es := s.lists[h];
    assert ListHolds(s, h, es) && t.lists[0] == s.lists[0] + es;
    forall e: nat ensures Flagged(t, e) {
      assert Flagged(s, e) && (e in t.lists[0] <==> e in s.lists[0] || e in es);
    }
  }

  lemma MakingKeepsTemps(s: State, step: Step)
    requires Shape(s) && Places(s) && Temps(s) && Enabled(s, step) && (step.TempMade? || step.Normal?)
    ensures Temps(Apply(s, step))
  {
    assert Flagged(s, step.e);
    if step.TempMade? {
      MadeKeepsFlags(s, Apply(s, step), step.a, step.e, true, step.size, step.size);
    } else {
      MadeKeepsFlags(s, Apply(s, step), step.a, step.e, false, step.size, s.eventSize);
    }
  }

  lemma MovingKeepsTemps(s: State, step: Step)
    requires Shape(s) && Places(s) && Temps(s) && Enabled(s, step) && Moves(step)
    ensures Temps(Apply(s, step))
  {
    match step {
      case Read(a, station, k) => ReadKeepsFlags(s, a, station, k);
      case Write(a, es) => WriteKeepsFlags(s, a, es);
      case Dump(a, es) => DumpKeepsFlags(s, a, es);
    }
  }

  lemma ConductorKeepsTemps(s: State, step: Step)
    requires Shape(s) && Places(s) && Temps(s) && Enabled(s, step) && Actor(step) == ET_SYS
    ensures Temps(Apply(s, step))
  {
    match step {
      case Deliver(station, to, es) => DeliverKeepsFlags(s, station, to, es);
      case Grab(station) => GrabKeepsFlags(s, station);
      case Clear(station, kept) => ClearKeepsFlags(s, station, kept);
      case Recycle(station) => RecycleKeepsFlags(s, station);
    }
  }

  /** What the flags depend on. */
  lemma SameFlags(s: State, t: State)
    requires Shape(s) && FlagsRight(s) && Shape(t) && |t.ev| == |s.ev|
    requires forall e :: 0 <= e < |s.ev| ==> t.ev[e].temp == s.ev[e].temp && t.ev[e].owner == s.ev[e].owner
    requires t.lists == s.lists && t.home == s.home
    requires t.raw == s.raw && t.charged == s.charged && t.cleared == s.cleared
    ensures FlagsRight(t)
  {
    forall e: nat ensures Flagged(t, e) { assert Flagged(s, e); }
  }

  lemma StepKeepsTemps(s: State, step: Step)
    requires Shape(s) && Places(s) && Temps(s) && Enabled(s, step)
    ensures Temps(Apply(s, step))
  {
    if Actor(step) == ET_SYS {
      ConductorKeepsTemps(s, step);
    } else if Moves(step) {
      MovingKeepsTemps(s, step);
    } else if step.TempMade? || step.Normal? {
      MakingKeepsTemps(s, step);
    } else {
      SameFlags(s, Apply(s, step));
    }
  }

  lemma StepKeepsInv(s: State, step: Step)
    requires Inv(s) && Enabled(s, step)
    ensures Inv(Apply(s, step))
  {
    StepKeepsPlaces(s, step);
    StepKeepsCounts(s, step);
    StepKeepsTemps(s, step);
  }

  // ----- whole runs -----

  ghost predicate Possible(s: State, steps: seq<Step>)
    requires Shape(s)
    decreases |steps|, 0
  {
    |steps| == 0 ||
    (Possible(s, steps[..|steps| - 1]) && Enabled(Run(s, steps[..|steps| - 1]), steps[|steps| - 1]))
  }

  ghost function Run(s: State, steps: seq<Step>): (t: State)
    requires Shape(s) && Possible(s, steps)
    ensures Shape(t) && |t.ev| == |s.ev| && |t.att| == |s.att| && |t.lists| == |s.lists|
    decreases |steps|, 1
  {
    if |steps| == 0 then s else Apply(Run(s, steps[..|steps| - 1]), steps[|steps| - 1])
  }

  /** All the invariants hold after any interleaving of the steps of all attachments
      and conductors. */
  lemma {:induction false} RunKeepsInv(s: State, steps: seq<Step>)
    requires Inv(s) && Possible(s, steps)
    ensures Inv(Run(s, steps))
  {
    if |steps| > 0 {
      RunKeepsInv(s, steps[..|steps| - 1]);
      StepKeepsInv(Run(s, steps[..|steps| - 1]), steps[|steps| - 1]);
    }
  }

  lemma RunOneMore(s: State, steps: seq<Step>, step: Step)
    requires Shape(s) && Possible(s, steps) && Enabled(Run(s, steps), step)
    ensures Possible(s, steps + [step]) && Run(s, steps + [step]) == Apply(Run(s, steps), step)
  {
    assert (steps + [step])[..|steps|] == steps;
  }

  /** The system as et_system_start leaves it: all events in GrandCentral's input list. */
  ghost predicate Started(s: State) {
    && Shape(s)
    && (forall e :: 0 <= e < |s.ev| ==>
          s.ev[e].owner == ET_SYS && s.home[e] == 0 && !s.ev[e].temp && s.ev[e].memsize == s.eventSize)
    && s.lists[0] == seq(|s.ev|, i => i)
    && (forall l :: 0 < l < |s.lists| ==> s.lists[l] == [])
    && (forall a :: 0 <= a < |s.att| ==> s.att[a] == Attachment(s.att[a].stat, 0, 0, 0, 0, 0, 0, 0))
    && s.ntemps == 0 && s.raw == {} && s.cleared == {} && s.live == {} && s.charged == {}
    && s.reserved == multiset{} && s.settling == multiset{} && s.leaked == 0
  }

  lemma StartedHolds(s: State)
    requires Started(s)
    ensures Inv(s)
  {
    forall l | 0 <= l < |s.lists| ensures ListHolds(s, l, s.lists[l]) { }
    forall e | 0 <= e < |s.ev| ensures e in s.lists[0] { assert s.lists[0][e] == e; }
    forall a | 0 <= a < |s.att| ensures |OwnedBy(s.ev, a)| == 0 { assert OwnedBy(s.ev, a) == {}; }
  }

  /** Every event has room for one of ordinary size. */
  ghost predicate Sized(s: State) { forall e :: 0 <= e < |s.ev| ==> s.ev[e].memsize >= s.eventSize }

  lemma StepKeepsSized(s: State, step: Step)
    requires Shape(s) && Sized(s) && Enabled(s, step)
    ensures Sized(Apply(s, step)) && Apply(s, step).eventSize == s.eventSize
  {
    if !Moves(step) && Actor(step) != ET_SYS { QuietKeepsSized(s, step); }
  }

  lemma QuietKeepsSized(s: State, step: Step)
    requires Shape(s) && Sized(s) && Enabled(s, step) && !Moves(step) && Actor(step) != ET_SYS
    ensures Sized(AfterQuiet(s, step)) && AfterQuiet(s, step).eventSize == s.eventSize
  {
  }

  lemma {:induction false} RunKeepsSized(s: State, steps: seq<Step>)
    requires Shape(s) && Sized(s) && Possible(s, steps)
    ensures Sized(Run(s, steps)) && Run(s, steps).eventSize == s.eventSize
  {
    if |steps| > 0 {
      RunKeepsSized(s, steps[..|steps| - 1]);
      StepKeepsSized(Run(s, steps[..|steps| - 1]), steps[|steps| - 1]);
    }
  }

  // ----- what the invariants mean -----

  /** Every event is in exactly one place. */
  lemma OnePlace(s: State, e: nat)
    requires Inv(s) && e < |s.ev|
    ensures s.ev[e].owner == ET_SYS ==>
              exists l :: 0 <= l < |s.lists| && e in s.lists[l] && forall k :: 0 <= k < |s.lists| && e in s.lists[k] ==> k == l
    ensures s.ev[e].owner != ET_SYS ==>
              0 <= s.ev[e].owner < |s.att| && forall k :: 0 <= k < |s.lists| ==> e !in s.lists[k]
  {
    forall k | 0 <= k < |s.lists| && e in s.lists[k]
      ensures s.ev[e].owner == ET_SYS && k == s.home[e]
    {
      assert ListHolds(s, k, s.lists[k]);
    }
  }

  function Listed(lists: seq<seq<nat>>): nat {
    if |lists| == 0 then 0 else Listed(lists[..|lists| - 1]) + |lists[|lists| - 1]|
  }

  ghost function Owned(ev: seq<Event>, n: nat): nat {
    if n == 0 then 0 else Owned(ev, n - 1) + |OwnedBy(ev, n - 1)|
  }

  function ListedIn(ev: seq<Event>, home: seq<nat>, n: nat): set<nat>
    requires |home| == |ev|
  {
    set e: nat | e < |ev| && ev[e].owner == ET_SYS && home[e] < n
  }

  function OwnedBelow(ev: seq<Event>, n: nat): set<nat> { set e: nat | e < |ev| && 0 <= ev[e].owner < n }

  lemma ListIsHomed(s: State, n: nat)
    requires Shape(s) && Places(s) && n < |s.lists|
    ensures ListedIn(s.ev, s.home, n + 1) == ListedIn(s.ev, s.home, n) + Elements(s.lists[n])
    ensures ListedIn(s.ev, s.home, n) !! Elements(s.lists[n])
  {
    assert ListHolds(s, n, s.lists[n]);
  }

  lemma {:induction false} ListedCount(s: State, n: nat)
    requires Shape(s) && Places(s) && n <= |s.lists|
    ensures |ListedIn(s.ev, s.home, n)| == Listed(s.lists[..n])
  {
    if n == 0 {
      assert ListedIn(s.ev, s.home, n) == {};
    } else {
      ListedCount(s, n - 1);
      assert s.lists[..n][..n - 1] == s.lists[..n - 1];
      ListIsHomed(s, n - 1);
      assert ListHolds(s, n - 1, s.lists[n - 1]);
      ElementsCount(s.lists[n - 1]);
    }
  }

  lemma {:induction false} OwnedCount(ev: seq<Event>, n: nat)
    ensures |OwnedBelow(ev, n)| == Owned(ev, n)
  {
    if n == 0 {
      assert OwnedBelow(ev, n) == {};
    } else {
      OwnedCount(ev, n - 1);
      assert OwnedBelow(ev, n) == OwnedBelow(ev, n - 1) + OwnedBy(ev, n - 1);
    }
  }

  lemma AllSomewhere(s: State)
    requires Shape(s) && Places(s)
    ensures Indices(|s.ev|) == ListedIn(s.ev, s.home, |s.lists|) + OwnedBelow(s.ev, |s.att|)
  {
  }

  /** The pool is conserved: listed and owned events add up to all events. */
  lemma PoolConserved(s: State)
    requires Inv(s)
    ensures Listed(s.lists) + Owned(s.ev, |s.att|) == |s.ev|
  {
    ListedCount(s, |s.lists|);
    assert s.lists[..|s.lists|] == s.lists;
    OwnedCount(s.ev, |s.att|);
    AllSomewhere(s);
    assert ListedIn(s.ev, s.home, |s.lists|) !! OwnedBelow(s.ev, |s.att|);
  }

  /** The room check of et_station_nwrite and et_station_ndump never fails for events
      the caller owns. */
  lemma AlwaysRoom(s: State, es: seq<nat>, a: nat, l: nat)
    requires Inv(s) && AllOwnedBy(s, es, a) && Distinct(es) && l < |s.lists|
    ensures |s.lists[l]| + |es| <= |s.ev|
  {
    OwnedNotListed(s, es, a);
    assert ListHolds(s, l, s.lists[l]);
    ElementsCount(s.lists[l] + es);
    Subset(Elements(s.lists[l] + es), Indices(|s.ev|));
  }

  lemma Subset(small: set<nat>, big: set<nat>)
    requires small <= big
    ensures |small| <= |big|
  {
    assert big == small + (big - small);
  }

  /** How far ntemps is from the number of temp files: what is in progress or has
      failed, and files counted no longer but still there. */
  lemma TempsApart(s: State)
    requires Inv(s)
    ensures s.ntemps - |s.live| == |s.reserved| + |s.settling| + s.leaked + |s.charged - s.live| - |s.live - s.charged|
    ensures 0 <= s.ntemps <= s.maxTemps
  {
    assert s.charged == s.live * s.charged + (s.charged - s.live);
    assert s.live == s.live * s.charged + (s.live - s.charged);
  }

  /** Calls that could not make a temp file. */
  function Failures(steps: seq<Step>): nat {
    if |steps| == 0 then 0
    else Failures(steps[..|steps| - 1]) + if steps[|steps| - 1].TempNotMade? then 1 else 0
  }

  /** The conductors could remove every file they wanted to. */
  predicate AllUnlinked(steps: seq<Step>) {
    forall i :: 0 <= i < |steps| && steps[i].Clear? ==> steps[i].kept == {}
  }

  lemma {:induction false} LeakedIsFailures(s: State, steps: seq<Step>)
    requires Shape(s) && Possible(s, steps)
    ensures Run(s, steps).leaked == s.leaked + Failures(steps)
  {
    if |steps| > 0 {
      var front, last := steps[..|steps| - 1], steps[|steps| - 1];
      LeakedIsFailures(s, front);
      LeakedStep(Run(s, front), last);
    }
  }

  lemma LeakedStep(s: State, step: Step)
    requires Shape(s) && Enabled(s, step)
    ensures Apply(s, step).leaked == s.leaked + if step.TempNotMade? then 1 else 0
  {
  }

  /** No file stays that ntemps does not count, if files can be removed. */
  lemma UnlinkStep(s: State, step: Step)
    requires Inv(s) && Enabled(s, step) && s.live <= s.charged && (step.Clear? ==> step.kept == {})
    ensures Apply(s, step).live <= Apply(s, step).charged
  {
    if step.Dump? || step.Clear? {
      forall e | e in s.live ensures e < |s.ev| && s.ev[e].temp { assert Flagged(s, e); }
    }
  }

  lemma {:induction false} NothingLeftOver(s: State, steps: seq<Step>)
    requires Inv(s) && Possible(s, steps) && s.live <= s.charged && AllUnlinked(steps)
    ensures Run(s, steps).live <= Run(s, steps).charged
  {
    if |steps| > 0 {
      var front, last := steps[..|steps| - 1], steps[|steps| - 1];
      assert AllUnlinked(front) by { assert forall i :: 0 <= i < |front| ==> front[i] == steps[i]; }
      NothingLeftOver(s, front);
      RunKeepsInv(s, front);
      UnlinkStep(Run(s, front), last);
    }
  }

  /** At every moment there are at most as many temp files as ntemps says, and that is at
      most its limit, if files can be removed. */
  lemma TempsBounded(s: State, steps: seq<Step>)
    requires Started(s) && Possible(s, steps) && AllUnlinked(steps)
    ensures |Run(s, steps).live| <= Run(s, steps).ntemps <= Run(s, steps).maxTemps
  {
    StartedHolds(s);
    RunKeepsInv(s, steps);
    NothingLeftOver(s, steps);
    var t := Run(s, steps);
    TempsApart(t);
    assert t.live - t.charged == {};
  }

  /** Events whose temp file a dump has removed that has not gone on to dump them, if they
      have not been recycled since. */
  ghost function GivenUp(s: State, steps: seq<Step>): set<nat>
    requires Shape(s) && Possible(s, steps)
  {
    if |steps| == 0 then {}
    else GivenUpAfter(Run(s, steps[..|steps| - 1]), steps[|steps| - 1], GivenUp(s, steps[..|steps| - 1]))
  }

  function GivenUpAfter(s: State, step: Step, sofar: set<nat>): set<nat>
    requires Shape(s) && Enabled(s, step)
  {
    if step.TempRemoved? && step.e in s.charged then sofar + {step.e}
    else if step.Dump? then sofar - Elements(step.es)
    else if step.Clear? then sofar - Elements(s.lists[Hands(step.station)])
    else sofar
  }

  lemma GivenUpStep(s: State, step: Step)
    requires Inv(s) && Enabled(s, step)
    ensures Apply(s, step).charged - Apply(s, step).live == GivenUpAfter(s, step, s.charged - s.live)
  {
    if step.TempMade? || step.TempNotMade? { assert Flagged(s, step.e); }
  }

  lemma {:induction false} GivenUpIs(s: State, steps: seq<Step>)
    requires Inv(s) && Possible(s, steps) && s.charged <= s.live
    ensures Run(s, steps).charged - Run(s, steps).live == GivenUp(s, steps)
  {
    if |steps| > 0 {
      var front, last := steps[..|steps| - 1], steps[|steps| - 1];
      GivenUpIs(s, front);
      RunKeepsInv(s, front);
      GivenUpStep(Run(s, front), last);
    }
  }

  /** Nobody is between claiming a temp event and making it, or between dumping one and
      lowering ntemps; and no dump has given up after removing a file. */
  ghost predicate AtRest(s: State, steps: seq<Step>)
    requires Shape(s) && Possible(s, steps)
  {
    |Run(s, steps).reserved| == 0 && |Run(s, steps).settling| == 0 && GivenUp(s, steps) == {}
  }

  /** Then ntemps is too high by the files that could not be made, and too low by those a
      conductor could not remove. */
  lemma TempsExact(s: State, steps: seq<Step>)
    requires Started(s) && Possible(s, steps) && AtRest(s, steps)
    ensures var t := Run(s, steps); t.ntemps - |t.live| == Failures(steps) - |t.live - t.charged|
    ensures AllUnlinked(steps) ==> (Run(s, steps).ntemps == |Run(s, steps).live| <==> Failures(steps) == 0)
  {
    StartedHolds(s);
    RunKeepsInv(s, steps);
    LeakedIsFailures(s, steps);
    GivenUpIs(s, steps);
    var t := Run(s, steps);
    TempsApart(t);
    assert t.charged - t.live == {};
    if AllUnlinked(steps) {
      NothingLeftOver(s, steps);
      assert t.live - t.charged == {};
    }
  }

  // ----- returned events -----

  /** A read that takes event e. */
  predicate Takes(s: State, step: Step, e: nat)
    requires Shape(s) && Enabled(s, step)
  { step.Read? && e in s.lists[In(step.station)][..step.k] }

  ghost predicate NeverTaken(s: State, steps: seq<Step>, e: nat)
    requires Shape(s) && Possible(s, steps)
  {
    |steps| > 0 ==>
      && NeverTaken(s, steps[..|steps| - 1], e)
      && !Takes(Run(s, steps[..|steps| - 1]), steps[|steps| - 1], e)
  }

  /** Who does something with event e by name. */
  predicate Names(step: Step, e: nat) { (step.Write? || step.Dump?) && e in step.es }

  predicate NeverNamed(steps: seq<Step>, e: nat) {
    |steps| > 0 ==> NeverNamed(steps[..|steps| - 1], e) && !Names(steps[|steps| - 1], e)
  }

  lemma StaysReturned(s: State, step: Step, e: nat)
    requires Inv(s) && Enabled(s, step) && e < |s.ev| && s.ev[e].owner == ET_SYS && !Takes(s, step, e)
    ensures Apply(s, step).ev[e].owner == ET_SYS && !Names(step, e)
  {
    if Moves(step) {
    } else if Actor(step) == ET_SYS {
    } else {
      assert Apply(s, step) == AfterQuiet(s, step);
    }
  }

  lemma {:induction false} NobodyReturns(t: State, steps: seq<Step>, e: nat)
    requires Inv(t) && e < |t.ev| && t.ev[e].owner == ET_SYS && Possible(t, steps) && NeverTaken(t, steps, e)
    ensures Run(t, steps).ev[e].owner == ET_SYS && NeverNamed(steps, e)
  {
    if |steps| > 0 {
      var front, last := steps[..|steps| - 1], steps[|steps| - 1];
      NobodyReturns(t, front, e);
      RunKeepsInv(t, front);
      StaysReturned(Run(t, front), last, e);
    }
  }

  /** Events that were returned belong to nobody and are returned by nobody, whatever
      happens, until someone reads them again. */
  lemma NoDoubleReturn(s: State, back: Step, steps: seq<Step>, e: nat)
    requires Inv(s) && Enabled(s, back) && Names(back, e)
    requires Possible(Apply(s, back), steps) && NeverTaken(Apply(s, back), steps, e)
    ensures e < |s.ev| && Run(Apply(s, back), steps).ev[e].owner == ET_SYS && NeverNamed(steps, e)
  {
    StepKeepsInv(s, back);
    ReturnedBelongsToNobody(s, back, e);
    NobodyReturns(Apply(s, back), steps, e);
  }

  lemma ReturnedBelongsToNobody(s: State, back: Step, e: nat)
    requires Shape(s) && Enabled(s, back) && Names(back, e)
    ensures e < |s.ev| && Apply(s, back).ev[e].owner == ET_SYS
  {
    var i :| 0 <= i < |back.es| && back.es[i] == e;
    assert s.ev[back.es[i]].owner == back.a;
  }

  // ----- what a caller must see to, exactly -----

  /** et_events_put checks each pointer's owner before it changes any of them, so it
      lets an event through that is named twice. It keeps every event in one place
      exactly when none is. */
  lemma WriteKeepsPlacesIffDistinct(s: State, a: nat, es: seq<nat>)
    requires Inv(s) && a < |s.att| && AllOwnedBy(s, es, a)
    ensures Shape(AfterWrite(s, a, es)) && (Places(AfterWrite(s, a, es)) <==> Distinct(es))
  {
    var t := AfterWrite(s, a, es);
    var l := Out(s.att[a].stat);
    var contents := ByPriority(s.lists[l] + es, Highs(s.ev));
    ByPriorityPermutes(s.lists[l] + es, Highs(s.ev));
    if Distinct(es) {
      WriteKeepsPlaces(s, a, es);
    } else {
      DistinctIffSingle(contents);
      DistinctIffSingle(es);
      var e :| multiset(es)[e] > 1;
      assert multiset(contents) == multiset(s.lists[l]) + multiset(es);
      assert multiset(contents)[e] > 1;
      assert !ListHolds(t, l, t.lists[l]);
    }
  }

  lemma StaleIsUncounted(s: State, a: nat, es: seq<nat>, e: nat)
    requires Shape(s) && Places(s) && FlagsRight(s) && a < |s.att| && AllOwnedBy(s, es, a)
    requires e in es && e in s.raw && s.ev[e].temp && e !in s.lists[0]
    ensures Shape(AfterWrite(s, a, es)) && !Flagged(AfterWrite(s, a, es), e)
  {
    var t := AfterWrite(s, a, es);
    assert Flagged(s, e) && t.lists[0] == s.lists[0];
    assert e in Elements(es);
  }

  /** A call of et_events_new that fails half-way leaves its caller with events that
      were never initialised. Returning them keeps the temp accounts exactly when none
      of them carries the temp flag of an earlier life. */
  lemma WriteKeepsTempsIffNoneStale(s: State, a: nat, es: seq<nat>)
    requires Inv(s) && a < |s.att| && AllOwnedBy(s, es, a) && Distinct(es)
    ensures Shape(AfterWrite(s, a, es)) && (Temps(AfterWrite(s, a, es)) <==> NoStaleTemps(s, es))
  {
    var t := AfterWrite(s, a, es);
    if NoStaleTemps(s, es) {
      WriteKeepsFlags(s, a, es);
    } else {
      OwnedNotListed(s, es, a);
      var i :| 0 <= i < |es| && es[i] in s.raw && s.ev[es[i]].temp;
      StaleIsUncounted(s, a, es, es[i]);
    }
  }

  lemma DumpKeepsPlacesIffDistinct(s: State, a: nat, es: seq<nat>)
    requires Inv(s) && a < |s.att| && AllOwnedBy(s, es, a)
    ensures Shape(AfterDump(s, a, es)) && (Places(AfterDump(s, a, es)) <==> Distinct(es))
  {
    var t := AfterDump(s, a, es);
    if Distinct(es) {
      DumpKeepsPlaces(s, a, es);
    } else {
      DistinctIffSingle(t.lists[0]);
      DistinctIffSingle(es);
      var e :| multiset(es)[e] > 1;
      assert multiset(t.lists[0])[e] > 1;
      assert !ListHolds(t, 0, t.lists[0]);
    }
  }

  /** A dump counts a stale event as one temp event less, though it was none. */
  lemma StaleIsOvercounted(s: State, es: seq<nat>, e: nat)
    requires Shape(s) && FlagsRight(s) && e in es && e < |s.ev| && e in s.raw && s.ev[e].temp
    requires forall i :: 0 <= i < |es| ==> es[i] < |s.ev| && es[i] !in s.lists[0] && es[i] !in s.cleared
    ensures |s.charged - Elements(es)| > |s.charged| - |TempsOf(s.ev, es)|
  {
    forall x | x in s.charged * Elements(es) ensures x in TempsOf(s.ev, es) - {e} { assert Flagged(s, x) && Flagged(s, e); }
    Subset(s.charged * Elements(es), TempsOf(s.ev, es) - {e});
    assert s.charged == (s.charged - Elements(es)) + s.charged * Elements(es);
  }

  lemma DumpKeepsTempsIffNoneStale(s: State, a: nat, es: seq<nat>)
    requires Inv(s) && a < |s.att| && AllOwnedBy(s, es, a) && Distinct(es)
    ensures Shape(AfterDump(s, a, es)) && (Temps(AfterDump(s, a, es)) <==> NoStaleTemps(s, es))
  {
    if NoStaleTemps(s, es) {
      DumpKeepsFlags(s, a, es);
    } else {
      OwnedNotListed(s, es, a);
      OwnedNotCleared(s, es, a);
      var i :| 0 <= i < |es| && es[i] in s.raw && s.ev[es[i]].temp;
      StaleIsOvercounted(s, es, es[i]);
    }
  }

  /** et_events_put refuses neither an event that is named twice nor a stale one. Its write
      keeps all the invariants if and only if there is none. */
  lemma WriteKeepsInvIff(s: State, a: nat, es: seq<nat>)
    requires Inv(s) && a < |s.att| && AllOwnedBy(s, es, a)
    ensures Inv(AfterWrite(s, a, es)) <==> Distinct(es) && NoStaleTemps(s, es)
  {
    WriteKeepsPlacesIffDistinct(s, a, es);
    if Distinct(es) {
      WriteKeepsTempsIffNoneStale(s, a, es);
      if NoStaleTemps(s, es) { ReturnKeepsCounts(s, a, es); }
    }
  }

  /** And the moving part of a dump. */
  lemma MoveKeepsInvIff(s: State, a: nat, es: seq<nat>)
    requires Inv(s) && a < |s.att| && AllOwnedBy(s, es, a)
    ensures Inv(AfterDump(s, a, es)) <==> Distinct(es) && NoStaleTemps(s, es)
  {
    DumpKeepsPlacesIffDistinct(s, a, es);
    if Distinct(es) {
      DumpKeepsTempsIffNoneStale(s, a, es);
      if NoStaleTemps(s, es) { ReturnKeepsCounts(s, a, es); }
    }
  }

  // ----- what a dump lets through -----

  /** The temp files removed by a dump of es, in its order. */
  function Removals(ev: seq<Event>, a: nat, es: seq<nat>): seq<Step> {
    if es == [] then []
    else
      var e := es[|es| - 1];
      Removals(ev, a, es[..|es| - 1]) + if e < |ev| && ev[e].temp then [TempRemoved(a, e)] else []
  }

  /** Each temp event has its file and is named only once. */
  predicate Removable(s: State, es: seq<nat>) {
    forall i :: 0 <= i < |es| && es[i] < |s.ev| && s.ev[es[i]].temp ==> es[i] in s.live && es[i] !in es[..i]
  }

  lemma RemovableMore(s: State, es: seq<nat>)
    requires es != [] && forall i :: 0 <= i < |es| ==> es[i] < |s.ev|
    ensures var front, e := es[..|es| - 1], es[|es| - 1];
      Removable(s, es) <==> Removable(s, front) && (s.ev[e].temp ==> e in s.live && e !in front)
  {
    var front := es[..|es| - 1];
    assert forall i :: 0 <= i < |front| ==> es[i] == front[i] && es[..i] == front[..i];
  }

  function Removed(s: State, es: seq<nat>): State { s.(live := s.live - TempsOf(s.ev, es)) }

  lemma OneMoreIff(s: State, steps: seq<Step>, step: Step)
    requires Shape(s)
    ensures Possible(s, steps + [step]) <==> Possible(s, steps) && Enabled(Run(s, steps), step)
    ensures Possible(s, steps + [step]) ==> Run(s, steps + [step]) == Apply(Run(s, steps), step)
  {
    assert (steps + [step])[..|steps|] == steps;
  }

  lemma RemovedMore(s: State, front: seq<nat>, e: nat)
    requires e < |s.ev|
    ensures Removed(s, front + [e]) ==
            if s.ev[e].temp then Removed(s, front).(live := Removed(s, front).live - {e}) else Removed(s, front)
  {
    assert TempsOf(s.ev, front + [e]) == TempsOf(s.ev, front) + if s.ev[e].temp then {e} else {};
    assert s.ev[e].temp ==> s.live - TempsOf(s.ev, front) - {e} == s.live - TempsOf(s.ev, front + [e]);
  }

  /** A dump gets past its removals, if no other failure stops it, exactly when its events are
      removable: the second removal of a file fails, and so does that of a file already gone. */
  lemma {:induction false} RemovalsPossibleIff(s: State, a: nat, es: seq<nat>)
    requires Shape(s) && a < |s.att| && AllOwnedBy(s, es, a)
    ensures Possible(s, Removals(s.ev, a, es)) <==> Removable(s, es)
    ensures Removable(s, es) ==> Run(s, Removals(s.ev, a, es)) == Removed(s, es)
  {
    if es == [] {
      assert Removed(s, es) == s;
    } else {
      var front, e := es[..|es| - 1], es[|es| - 1];
      RemovalsPossibleIff(s, a, front);
      RemovableMore(s, es);
      RemovedMore(s, front, e);
      assert es == front + [e];
      var steps := Removals(s.ev, a, front);
      assert steps + [] == steps;
      if s.ev[e].temp { RemovedOneMore(s, a, steps, front, e); }
    }
  }

  lemma RemovedOneMore(s: State, a: nat, steps: seq<Step>, front: seq<nat>, e: nat)
    requires Shape(s) && a < |s.att| && Owns(s, a, e) && s.ev[e].temp
    requires Possible(s, steps) ==> Run(s, steps) == Removed(s, front)
    ensures Possible(s, steps + [TempRemoved(a, e)]) <==> Possible(s, steps) && e in s.live && e !in front
    ensures Possible(s, steps + [TempRemoved(a, e)]) ==>
      Run(s, steps + [TempRemoved(a, e)]) == Removed(s, front).(live := Removed(s, front).live - {e})
  {
    OneMoreIff(s, steps, TempRemoved(a, e));
    RemovedNext(s, a, front, e);
  }

  lemma RemovedNext(s: State, a: nat, front: seq<nat>, e: nat)
    requires Shape(s) && Owns(s, a, e) && s.ev[e].temp
    ensures Shape(Removed(s, front))
    ensures Enabled(Removed(s, front), TempRemoved(a, e)) <==> e in s.live && e !in front
    ensures Enabled(Removed(s, front), TempRemoved(a, e)) ==>
      Apply(Removed(s, front), TempRemoved(a, e)) == Removed(s, front).(live := Removed(s, front).live - {e})
  {
    assert e in TempsOf(s.ev, front) <==> e in front;
  }

  /** An ordinary event is named twice. */
  predicate OrdinaryTwice(s: State, es: seq<nat>) {
    exists i :: 0 <= i < |es| && es[i] < |s.ev| && !s.ev[es[i]].temp && es[i] in es[..i]
  }

  /** A stale temp event whose file was left over. */
  predicate StaleWithFile(s: State, es: seq<nat>) {
    exists i :: 0 <= i < |es| && es[i] < |s.ev| && s.ev[es[i]].temp && es[i] in s.raw && es[i] in s.live
  }

  lemma DistinctIffNew(es: seq<nat>)
    ensures Distinct(es) <==> forall i :: 0 <= i < |es| ==> es[i] !in es[..i]
  {
    if forall i :: 0 <= i < |es| ==> es[i] !in es[..i] {
      forall i, j | 0 <= i < j < |es| ensures es[i] != es[j] { assert es[i] == es[..j][i]; }
    }
  }

  /** A dump that gets past its removals keeps all the invariants if and only if no ordinary
      event is named twice and no stale event still has its file. */
  lemma DumpKeepsInvIff(s: State, a: nat, es: seq<nat>)
    requires Inv(s) && a < |s.att| && AllOwnedBy(s, es, a) && Removable(s, es)
    ensures Possible(s, Removals(s.ev, a, es)) && Run(s, Removals(s.ev, a, es)) == Removed(s, es) && Shape(Removed(s, es))
    ensures Inv(AfterDump(Removed(s, es), a, es)) <==> !OrdinaryTwice(s, es) && !StaleWithFile(s, es)
  {
    RemovalsPossibleIff(s, a, es);
    var t := Removed(s, es);
    RunKeepsInv(s, Removals(s.ev, a, es));
    MoveKeepsInvIff(t, a, es);
    DistinctIffNew(es);
    assert NoStaleTemps(t, es) <==> !StaleWithFile(s, es) by {
      if !NoStaleTemps(t, es) {
        var i :| 0 <= i < |es| && es[i] in t.raw && es[i] < |t.ev| && t.ev[es[i]].temp;
        assert es[i] in s.live;
      }
    }
  }

  /** Any other is refused, and all the invariants are kept, like those that fail after some
      removals for whatever reason. */
  lemma RefusedKeepsInv(s: State, a: nat, es: seq<nat>)
    requires Inv(s) && a < |s.att| && AllOwnedBy(s, es, a)
    ensures forall n :: 0 <= n <= |es| && Removable(s, es[..n]) ==>
      && Possible(s, Removals(s.ev, a, es[..n])) && Inv(Run(s, Removals(s.ev, a, es[..n])))
      && Run(s, Removals(s.ev, a, es[..n])).lists == s.lists
    ensures !Removable(s, es) ==> exists n: nat :: RefusedAt(s, a, es, n)
  {
    forall n | 0 <= n <= |es| && Removable(s, es[..n])
      ensures Possible(s, Removals(s.ev, a, es[..n])) && Inv(Run(s, Removals(s.ev, a, es[..n])))
      ensures Run(s, Removals(s.ev, a, es[..n])).lists == s.lists
    {
      RemovalsPossibleIff(s, a, es[..n]);
      RunKeepsInv(s, Removals(s.ev, a, es[..n]));
    }
    if !Removable(s, es) { var n := StopsAt(s, a, es); }
  }

  /** The removal of event n's file is not possible, after those before it. */
  predicate RefusedAt(s: State, a: nat, es: seq<nat>, n: nat)
    requires Shape(s)
  {
    && n < |es| && es[n] < |s.ev| && Removable(s, es[..n]) && s.ev[es[n]].temp
    && !Enabled(Removed(s, es[..n]), TempRemoved(a, es[n]))
  }

  lemma {:induction false} StopsAt(s: State, a: nat, es: seq<nat>) returns (n: nat)
    requires Shape(s) && a < |s.att| && AllOwnedBy(s, es, a) && !Removable(s, es)
    ensures RefusedAt(s, a, es, n)
  {
    var front := es[..|es| - 1];
    RemovableMore(s, es);
    if Removable(s, front) {
      n := |es| - 1;
    } else {
      n := StopsAt(s, a, front);
      assert front[..n] == es[..n];
    }
  }

  // ----- what happens when a caller does not -----

  const PLAIN := Event(ET_SYS, false, false, false, 0, 10)
  const TEMP := Event(ET_SYS, false, true, false, 20, 20)

  /** A system of one event and one station, with one attachment. */
  function Tiny(e: Event, lists: seq<seq<nat>>, home: nat, reading: nat, writing: nat, ntemps: int,
                raw: set<nat>, cleared: set<nat>, live: set<nat>, charged: set<nat>, reserved: multiset<nat>): State {
    State(10, 5, [e], lists, [Attachment(0, 0, 0, 0, 0, reading, writing, 0)], ntemps, [home],
          raw, cleared, live, charged, reserved, multiset{}, 0)
  }

  const TINY := Tiny(PLAIN, [[0], [], []], 0, 0, 0, 0, {}, {}, {}, {}, multiset{})

  /** The attachment makes event 0 a temp event and puts it; the conductor takes it. */
  const MADE: seq<Step> := [] + [Read(0, 0, 1)] + [Reserve(0)] + [TempMade(0, 0, 20)]
  const PUT: seq<Step> := MADE + [Write(0, [0])] + [Grab(0)]

  lemma Then(s: State, steps: seq<Step>, t: State, step: Step, u: State)
    requires Shape(s) && Possible(s, steps) && Run(s, steps) == t
    requires Enabled(t, step) && Apply(t, step) == u
    ensures Possible(s, steps + [step]) && Run(s, steps + [step]) == u
  {
    RunOneMore(s, steps, step);
  }

  lemma TinyStarted()
    ensures Started(TINY)
  {
    assert TINY.lists[0] == seq(|TINY.ev|, i => i);
  }

  lemma TinyRead(e: Event, reading: nat, writing: nat, ntemps: int, files: set<nat>)
    requires e.owner == ET_SYS
    ensures var s := Tiny(e, [[0], [], []], 0, reading, writing, ntemps, {}, {}, files, {}, multiset{});
      && Enabled(s, Read(0, 0, 1))
      && Apply(s, Read(0, 0, 1)) ==
           Tiny(e.(owner := 0), [[], [], []], 0, reading + 1, writing, ntemps, {0}, {}, files, {}, multiset{})
  {
    var s := Tiny(e, [[0], [], []], 0, reading, writing, ntemps, {}, {}, files, {}, multiset{});
    var t := Apply(s, Read(0, 0, 1));
    assert [0][..1] == [0] && t.ev == [e.(owner := 0)] && t.raw == {0};
    assert s.lists[0][1..] == [] && t.lists == [[], [], []];
    assert t.att == [Attachment(0, 0, 0, 0, 0, reading + 1, writing, 0)];
  }

  lemma TempIsMade()
    ensures Possible(TINY, MADE)
    ensures Run(TINY, MADE) ==
            Tiny(TEMP.(owner := 0), [[], [], []], 0, 1, 0, 1, {}, {}, {0}, {0}, multiset{})
  {
    var mine := PLAIN.(owner := 0);
    var t := Tiny(mine, [[], [], []], 0, 1, 0, 0, {0}, {}, {}, {}, multiset{});
    TinyRead(PLAIN, 0, 0, 0, {});
    Then(TINY, [], TINY, Read(0, 0, 1), t);
    var u := Tiny(mine, [[], [], []], 0, 1, 0, 1, {0}, {}, {}, {}, multiset{0});
    assert multiset{}[0 := 1] == multiset{0};
    Then(TINY, [] + [Read(0, 0, 1)], t, Reserve(0), u);
    assert multiset{0}[0 := 0] == multiset{} && {0} - {0} == {} && {} + {0} == {0};
    Then(TINY, [] + [Read(0, 0, 1)] + [Reserve(0)], u, TempMade(0, 0, 20),
         Tiny(TEMP.(owner := 0), [[], [], []], 0, 1, 0, 1, {}, {}, {0}, {0}, multiset{}));
  }

  lemma TinyPlaced(s: State, reading: nat, writing: nat, ntemps: int, raw: set<nat>, files: set<nat>)
    requires s == Tiny(TEMP.(owner := 0), [[], [], []], 0, reading, writing, ntemps, raw, {}, files, files, multiset{})
    ensures Placed(s, [0], 1, [0]) == Tiny(TEMP, [[], [0], []], 1, reading, writing, ntemps, raw, {}, files, files, multiset{})
  {
    OneMoved(s, [0]);
    assert s.ev[0].(owner := ET_SYS) == TEMP && s.lists[1 := [0]] == [[], [0], []];
  }

  lemma TinyNoted(s: State, reading: nat, writing: nat, ntemps: int, raw: set<nat>, files: set<nat>)
    requires s == Tiny(TEMP, [[], [0], []], 1, reading, writing, ntemps, raw, {}, files, files, multiset{})
    ensures Noted(s, 0, [0]) == Tiny(TEMP, [[], [0], []], 1, reading, writing + 1, ntemps, raw - {0}, {}, files, files, multiset{})
  {
    assert Elements([0]) == {0};
    assert s.att[0 := Attachment(0, 0, 0, 0, 0, reading, writing + 1, 0)] == [Attachment(0, 0, 0, 0, 0, reading, writing + 1, 0)];
  }

  lemma TinyWrite(s: State, reading: nat, writing: nat, ntemps: int, raw: set<nat>, files: set<nat>)
    requires s == Tiny(TEMP.(owner := 0), [[], [], []], 0, reading, writing, ntemps, raw, {}, files, files, multiset{})
    ensures Shape(s) && AllOwnedBy(s, [0], 0)
    ensures AfterWrite(s, 0, [0]) ==
            Tiny(TEMP, [[], [0], []], 1, reading, writing + 1, ntemps, raw - {0}, {}, files, files, multiset{})
  {
    WritesOne(s);
    TinyPlaced(s, reading, writing, ntemps, raw, files);
    TinyNoted(Placed(s, [0], 1, [0]), reading, writing, ntemps, raw, files);
  }

  lemma WritesOne(s: State)
    requires Shape(s) && |s.ev| == 1 && !s.ev[0].high && |s.att| == 1 && s.att[0].stat == 0 && s.lists[1] == []
    ensures AfterWrite(s, 0, [0]) == Noted(Placed(s, [0], 1, [0]), 0, [0])
  {
    OneByPriority(s.ev);
    assert s.lists[1] + [0] == [] + [0];
  }

  lemma TinyGrab(s: State, reading: nat, writing: nat, ntemps: int, files: set<nat>)
    requires s == Tiny(TEMP, [[], [0], []], 1, reading, writing, ntemps, {}, {}, files, files, multiset{})
    ensures Enabled(s, Grab(0))
    ensures Apply(s, Grab(0)) == Tiny(TEMP, [[], [], [0]], 2, reading, writing, ntemps, {}, {}, files, files, multiset{})
  {
    var t := Apply(s, Grab(0));
    assert t.lists == [[], [], [0]] && t.home == [2];
  }

  lemma TinyClear(s: State, reading: nat, writing: nat, ntemps: int, files: set<nat>, kept: set<nat>)
    requires files <= {0}
    requires s == Tiny(TEMP, [[], [], [0]], 2, reading, writing, ntemps, {}, {}, files, files, multiset{})
    ensures Enabled(s, Clear(0, kept))
    ensures Apply(s, Clear(0, kept)) ==
            Tiny(TEMP, [[], [], [0]], 2, reading, writing, ntemps - 1, {}, {0}, files * kept, {}, multiset{})
  {
    assert TempsOf(s.ev, [0]) == {0} && Elements([0]) == {0};
    assert files - ({0} - kept) == files * kept && files - {0} == {};
  }

  lemma TinyRecycle(reading: nat, writing: nat, ntemps: int, files: set<nat>)
    ensures var s := Tiny(TEMP, [[], [], [0]], 2, reading, writing, ntemps, {}, {0}, files, {}, multiset{});
      && Enabled(s, Recycle(0))
      && Apply(s, Recycle(0)) == Tiny(TEMP, [[0], [], []], 0, reading, writing, ntemps, {}, {}, files, {}, multiset{})
  {
    var s := Tiny(TEMP, [[], [], [0]], 2, reading, writing, ntemps, {}, {0}, files, {}, multiset{});
    var t := Apply(s, Recycle(0));
    assert [] + [0] == [0] && Homes([2], [0], 0) == [0] && Owners([TEMP], [0], ET_SYS) == [TEMP];
    assert Elements([0]) == {0} && t.lists == [[0], [], []];
  }

  lemma TempIsWritten()
    ensures Possible(TINY, MADE + [Write(0, [0])])
    ensures Run(TINY, MADE + [Write(0, [0])]) == Tiny(TEMP, [[], [0], []], 1, 1, 1, 1, {}, {}, {0}, {0}, multiset{})
  {
    TempIsMade();
    var t := Run(TINY, MADE);
    TinyWrite(t, 1, 0, 1, {}, {0});
    assert {} - {0} == {};
    assert Enabled(t, Write(0, [0]));
    RunOneMore(TINY, MADE, Write(0, [0]));
  }

  lemma TempIsPut()
    ensures Possible(TINY, PUT)
    ensures Run(TINY, PUT) == Tiny(TEMP, [[], [], [0]], 2, 1, 1, 1, {}, {}, {0}, {0}, multiset{})
  {
    TempIsWritten();
    TinyGrab(Run(TINY, MADE + [Write(0, [0])]), 1, 1, 1, {0});
    RunOneMore(TINY, MADE + [Write(0, [0])], Grab(0));
  }

  lemma OneMoved(s: State, contents: seq<nat>)
    requires |s.ev| == 1 && |s.home| == 1 && |s.lists| == 3
    ensures Placed(s, [0], 1, contents) == s.(ev := [s.ev[0].(owner := ET_SYS)], home := [1], lists := s.lists[1 := contents])
  {
    assert Owners(s.ev, [0], ET_SYS) == [s.ev[0].(owner := ET_SYS)];
    assert Homes(s.home, [0], 1) == [1];
  }

  lemma OneByPriority(ev: seq<Event>)
    requires |ev| == 1 && !ev[0].high
    ensures ByPriority([] + [0], Highs(ev)) == [0]
  {
    WithPriorityOfOne([0], Highs(ev), false, true);
    WithPriorityOfOne([0], Highs(ev), false, false);
  }

  /** The conductor cannot remove the file: it stays, and ntemps does not count it. */
  lemma FileLeftOver()
    ensures Started(TINY) && Possible(TINY, PUT + [Clear(0, {0})])
    ensures var t := Run(TINY, PUT + [Clear(0, {0})]); AtRest(TINY, PUT + [Clear(0, {0})]) && t.live == {0} && t.ntemps == 0
  {
    TinyStarted();
    TempIsPut();
    TinyClear(Run(TINY, PUT), 1, 1, 1, {0}, {0});
    RunOneMore(TINY, PUT, Clear(0, {0}));
    StartedHolds(TINY);
    GivenUpIs(TINY, PUT + [Clear(0, {0})]);
  }

  /** Whether it can or not, the attachment gets the event again but does not initialise it. */
  function Reread(kept: set<nat>): seq<Step> { PUT + [Clear(0, kept)] + [Recycle(0)] + [Read(0, 0, 1)] }

  lemma EventIsBack(kept: set<nat>)
    ensures Possible(TINY, PUT + [Clear(0, kept)] + [Recycle(0)])
    ensures Run(TINY, PUT + [Clear(0, kept)] + [Recycle(0)]) ==
            Tiny(TEMP, [[0], [], []], 0, 1, 1, 0, {}, {}, {0} * kept, {}, multiset{})
  {
    TempIsPut();
    TinyClear(Run(TINY, PUT), 1, 1, 1, {0}, kept);
    var t := Tiny(TEMP, [[], [], [0]], 2, 1, 1, 0, {}, {0}, {0} * kept, {}, multiset{});
    Then(TINY, PUT, Run(TINY, PUT), Clear(0, kept), t);
    TinyRecycle(1, 1, 0, {0} * kept);
    var u := Tiny(TEMP, [[0], [], []], 0, 1, 1, 0, {}, {}, {0} * kept, {}, multiset{});
    Then(TINY, PUT + [Clear(0, kept)], t, Recycle(0), u);
  }

  function StaleState(files: set<nat>): State {
    Tiny(TEMP.(owner := 0), [[], [], []], 0, 2, 1, 0, {0}, {}, files, {}, multiset{})
  }

  lemma StaleIsReachable(kept: set<nat>)
    ensures Started(TINY) && Possible(TINY, Reread(kept)) && Run(TINY, Reread(kept)) == StaleState({0} * kept)
    ensures AllOwnedBy(StaleState({0} * kept), [0], 0) && !NoStaleTemps(StaleState({0} * kept), [0])
  {
    TinyStarted();
    EventIsBack(kept);
    var u := Run(TINY, PUT + [Clear(0, kept)] + [Recycle(0)]);
    TinyRead(TEMP, 1, 1, 0, {0} * kept);
    Then(TINY, PUT + [Clear(0, kept)] + [Recycle(0)], u, Read(0, 0, 1), StaleState({0} * kept));
    assert [0][0] in StaleState({0} * kept).raw;
  }

  /** With its file gone a dump of it is refused. */
  lemma StaleIsRefused()
    ensures Possible(TINY, Reread({})) && Run(TINY, Reread({})) == StaleState({})
    ensures !Removable(StaleState({}), [0]) && RefusedAt(StaleState({}), 0, [0], 0)
  {
    StaleIsReachable({});
    assert {0} * {} == {};
    NoFileIsRefused(StaleState({}));
  }

  lemma NoFileIsRefused(s: State)
    requires Shape(s) && |s.ev| == 1 && s.ev[0].temp && s.live == {}
    ensures !Removable(s, [0]) && RefusedAt(s, 0, [0], 0)
  {
    assert [0][..0] == [];
    assert [0][0] !in s.live;
  }

  lemma MoveIsShaped(s: State, a: nat, es: seq<nat>)
    requires Shape(s) && a < |s.att| && AllOwnedBy(s, es, a)
    ensures Shape(AfterDump(s, a, es))
  {
  }

  lemma StaleIsRemovable(s: State)
    requires s == StaleState({0})
    ensures AllOwnedBy(s, [0], 0) && Removable(s, [0]) && Removed(s, [0]) == StaleState({})
  {
    assert forall i :: 0 <= i < 1 ==> [0][i] in s.live && [0][..i] == [];
    assert TempsOf(s.ev, [0]) == {0} && {0} - {0} == {};
  }

  lemma StaleIsMoved(s: State)
    requires s == StaleState({})
    ensures Shape(s) && AfterDump(s, 0, [0]).settling == multiset{0} && AfterDump(s, 0, [0]).ntemps == 0
  {
    assert TempsOf(s.ev, [0]) == {0} && multiset{}[0 := 1] == multiset{0};
  }

  /** With its file left over it is dumped, and ntemps ends below zero. */
  lemma StaleIsDumped()
    ensures Possible(TINY, Reread({0})) && Run(TINY, Reread({0})) == StaleState({0})
    ensures AllOwnedBy(StaleState({0}), [0], 0) && Removable(StaleState({0}), [0])
    ensures var t := AfterDump(Removed(StaleState({0}), [0]), 0, [0]);
      Shape(t) && Enabled(t, Settle(0, 1)) && Apply(t, Settle(0, 1)).ntemps == -1
  {
    StaleIsReachable({0});
    assert {0} * {0} == {0};
    StaleIsRemovable(StaleState({0}));
    StaleIsMoved(StaleState({}));
    MoveIsShaped(StaleState({}), 0, [0]);
  }

  lemma StaleIsPut(s: State)
    requires s == StaleState({})
    ensures Shape(s) && AllOwnedBy(s, [0], 0)
    ensures AfterWrite(s, 0, [0]) == Tiny(TEMP, [[], [0], []], 1, 2, 2, 0, {}, {}, {}, {}, multiset{})
  {
    TinyWrite(s, 2, 1, 0, {0}, {});
    assert {0} - {0} == {};
  }

  lemma StaleIsCleared(t: State)
    requires t == Tiny(TEMP, [[], [0], []], 1, 2, 2, 0, {}, {}, {}, {}, multiset{})
    ensures Enabled(t, Grab(0)) && Enabled(Apply(t, Grab(0)), Clear(0, {}))
    ensures Apply(Apply(t, Grab(0)), Clear(0, {})).ntemps == -1
  {
    TinyGrab(t, 2, 2, 0, {});
    TinyClear(Apply(t, Grab(0)), 2, 2, 0, {}, {});
  }

  /** If the attachment puts it all the same, ntemps ends below the number of files, and
      even below zero. */
  lemma StaleUndercounts()
    ensures Started(TINY) && Possible(TINY, Reread({})) && AllOwnedBy(Run(TINY, Reread({})), [0], 0)
    ensures var t := AfterWrite(Run(TINY, Reread({})), 0, [0]);
      Enabled(t, Grab(0)) && Enabled(Apply(t, Grab(0)), Clear(0, {})) &&
      Apply(Apply(t, Grab(0)), Clear(0, {})).ntemps == -1
  {
    StaleIsReachable({});
    assert {0} * {} == {};
    StaleIsPut(Run(TINY, Reread({})));
    StaleIsCleared(AfterWrite(Run(TINY, Reread({})), 0, [0]));
  }

  lemma TwiceInOneCall(s: State)
    requires s == Tiny(PLAIN.(owner := 0), [[], [], []], 0, 1, 0, 0, {0}, {}, {}, {}, multiset{})
    ensures Shape(s) && AllOwnedBy(s, [0, 0], 0)
    ensures AfterWrite(s, 0, [0, 0]).lists == [[], [0, 0], []] && !Places(AfterWrite(s, 0, [0, 0]))
  {
    WithPriorityOfOne([0, 0], Highs(s.ev), false, true);
    WithPriorityOfOne([0, 0], Highs(s.ev), false, false);
    assert [] + [0, 0] == [0, 0] && AfterWrite(s, 0, [0, 0]).lists == [[], [0, 0], []];
    TwiceMisplaced(AfterWrite(s, 0, [0, 0]));
  }

  lemma TwiceMisplaced(t: State)
    requires Shape(t) && t.lists == [[], [0, 0], []]
    ensures !Places(t)
  {
    assert !ListHolds(t, 1, t.lists[1]) by { assert t.lists[1][0] == t.lists[1][1]; }
  }

  /** An event put twice in one call is in the list twice. */
  lemma TwiceListed()
    ensures Started(TINY) && Possible(TINY, [Read(0, 0, 1)])
    ensures var t := Run(TINY, [Read(0, 0, 1)]);
      AllOwnedBy(t, [0, 0], 0) && AfterWrite(t, 0, [0, 0]).lists == [[], [0, 0], []] && !Places(AfterWrite(t, 0, [0, 0]))
  {
    TinyStarted();
    TinyRead(PLAIN, 0, 0, 0, {});
    var t := Tiny(PLAIN.(owner := 0), [[], [], []], 0, 1, 0, 0, {0}, {}, {}, {}, multiset{});
    Then(TINY, [], TINY, Read(0, 0, 1), t);
    assert [] + [Read(0, 0, 1)] == [Read(0, 0, 1)];
    TwiceInOneCall(t);
  }

  // ----- where events go -----

  predicate High(ev: seq<Event>, e: nat) { e < |ev| && ev[e].high }

  /** List r holds the events of q, those of high priority first and each kind in order of
      arrival: event i of q is at place to[i]. */
  ghost predicate JoinedBy(ev: seq<Event>, q: seq<nat>, r: seq<nat>, to: seq<nat>) {
    && |to| == |q| == |r|
    && (forall i :: 0 <= i < |q| ==> to[i] < |r| && r[to[i]] == q[i])
    && (forall i, j :: 0 <= i < |q| && 0 <= j < |q| && i != j ==>
          (to[i] < to[j] <==> if High(ev, q[i]) == High(ev, q[j]) then i < j else High(ev, q[i])))
  }

  /** From s to t the events es joined list l, behind those of their kind, and no other list
      changed. */
  ghost predicate Joins(s: State, t: State, l: nat, es: seq<nat>) {
    && |t.lists| == |s.lists| && l < |s.lists|
    && (forall k :: 0 <= k < |s.lists| && k != l ==> t.lists[k] == s.lists[k])
    && (forall i :: 0 <= i < |es| ==> es[i] in t.lists[l])
    && exists to :: JoinedBy(s.ev, s.lists[l] + es, t.lists[l], to)
  }

  lemma JoinsIs(s: State, t: State, l: nat, es: seq<nat>)
    requires l < |s.lists| && t.lists == s.lists[l := ByPriority(s.lists[l] + es, Highs(s.ev))]
    ensures Joins(s, t, l, es)
  {
    var q, r := s.lists[l] + es, t.lists[l];
    var to := ByPriorityArranges(q, Highs(s.ev));
    assert forall i :: 0 <= i < |q| ==> IsHigh(Highs(s.ev), q[i]) == High(s.ev, q[i]);
    assert JoinedBy(s.ev, q, r, to);
    forall i | 0 <= i < |es| ensures es[i] in r { assert q[|s.lists[l]| + i] == es[i] && r[to[|s.lists[l]| + i]] == es[i]; }
  }

  /** A write joins the output list of the attachment's station. */
  lemma WriteJoins(s: State, a: nat, es: seq<nat>)
    requires Shape(s) && a < |s.att|
    ensures Joins(s, AfterWrite(s, a, es), 3 * s.att[a].stat + 1, es)
  {
    JoinsIs(s, AfterWrite(s, a, es), 3 * s.att[a].stat + 1, es);
  }

  /** What a step does to the lists. Station k's are 3k (input), 3k + 1 (output) and 3k + 2 (in
      its conductor's hands). Reads take from the front of an input list; a dump and what a
      conductor recycles go to the end of GrandCentral's; a conductor takes an output list
      whole; and only writes and deliveries look at priorities. */
  ghost predicate Goes(s: State, t: State, step: Step)
    requires Shape(s) && Enabled(s, step)
  {
    if step.Read? then t.lists == s.lists[3 * step.station := s.lists[3 * step.station][step.k..]]
    else if step.Write? then Joins(s, t, 3 * s.att[step.a].stat + 1, step.es)
    else if step.Dump? then t.lists == s.lists[0 := s.lists[0] + step.es]
    else if step.Grab? then
      t.lists == s.lists[3 * step.station + 1 := []][3 * step.station + 2 := s.lists[3 * step.station + 1]]
    else if step.Deliver? then Delivered(s, t, 3 * step.station + 2, 3 * step.to, step.es)
    else if step.Recycle? then
      t.lists == s.lists[3 * step.station + 2 := []][0 := s.lists[0] + s.lists[3 * step.station + 2]]
    else t.lists == s.lists
  }

  /** The events es leave list `from` for list l. */
  ghost predicate Delivered(s: State, t: State, from: nat, l: nat, es: seq<nat>) {
    && from < |s.lists| == |t.lists| && LeftOf(s.lists[from], es, t.lists[from])
    && Joins(s.(lists := s.lists[from := t.lists[from]]), t, l, es)
  }

  /** What is left of a list without the events es. */
  ghost predicate LeftOf(list: seq<nat>, es: seq<nat>, left: seq<nat>) {
    (forall e :: e in left <==> e in list && e !in es) && multiset(left) <= multiset(list)
  }

  lemma StepGoes(s: State, step: Step)
    requires Shape(s) && Enabled(s, step)
    ensures Goes(s, Apply(s, step), step)
  {
    if step.Write? {
      WriteJoins(s, step.a, step.es);
    } else if step.Deliver? {
      DeliverJoins(s, step.station, step.to, step.es);
    } else if Actor(step) == ET_SYS {
      ConductorGoes(s, step);
    } else if !Moves(step) {
      QuietGoes(s, step);
    }
  }

  lemma ConductorGoes(s: State, step: Step)
    requires Shape(s) && Enabled(s, step) && Actor(step) == ET_SYS && !step.Deliver?
    ensures Goes(s, AfterConductor(s, step), step)
  {
  }

  lemma QuietGoes(s: State, step: Step)
    requires Shape(s) && Enabled(s, step) && Actor(step) != ET_SYS && !Moves(step)
    ensures AfterQuiet(s, step).lists == s.lists
  {
  }

  lemma {:induction false} WithoutHas(s: seq<nat>, es: seq<nat>, e: nat)
    ensures e in Without(s, es) <==> e in s && e !in es
  {
    if s != [] {
      WithoutHas(s[..|s| - 1], es, e);
      assert e in s <==> e in s[..|s| - 1] || e == s[|s| - 1];
    }
  }

  lemma {:induction false} WithoutFewer(s: seq<nat>, es: seq<nat>)
    ensures multiset(Without(s, es)) <= multiset(s)
  {
    if s != [] {
      var front, last := s[..|s| - 1], s[|s| - 1];
      WithoutFewer(front, es);
      assert multiset(s) == multiset(front) + multiset{last} by { assert s == front + [last]; }
    }
  }

  lemma WithoutIs(list: seq<nat>, es: seq<nat>)
    ensures LeftOf(list, es, Without(list, es))
  {
    WithoutFewer(list, es);
    forall e: nat ensures e in Without(list, es) <==> e in list && e !in es { WithoutHas(list, es, e); }
  }

  lemma DeliverJoins(s: State, station: nat, to: nat, es: seq<nat>)
    requires Shape(s) && CanDeliver(s, station, to, es)
    ensures Delivered(s, AfterDeliver(s, station, to, es), 3 * station + 2, 3 * to, es)
  {
    var from := 3 * station + 2;
    var u := s.(lists := s.lists[from := Without(s.lists[from], es)]);
    WithoutIs(s.lists[from], es);
    DeliveredLists(s, station, to, es);
    JoinsIs(u, AfterDeliver(s, station, to, es), 3 * to, es);
  }

  lemma DeliveredLists(s: State, station: nat, to: nat, es: seq<nat>)
    requires Shape(s) && CanDeliver(s, station, to, es)
    ensures var u := s.(lists := s.lists[3 * station + 2 := Without(s.lists[3 * station + 2], es)]);
      AfterDeliver(s, station, to, es).lists == u.lists[3 * to := ByPriority(u.lists[3 * to] + es, Highs(u.ev))]
      && AfterDeliver(s, station, to, es).lists[3 * station + 2] == u.lists[3 * station + 2]
  {
  }

  // ----- what the others cannot do -----

  /** What an attachment relies on while it is in a call. */
  ghost predicate SameFor(s: State, t: State, a: nat)
    requires a < |s.att|
  {
    && |t.ev| == |s.ev| && |t.att| == |s.att| && |t.lists| == |s.lists| && t.att[a] == s.att[a]
    && t.eventSize == s.eventSize && t.maxTemps == s.maxTemps
    && t.reserved[a] == s.reserved[a] && t.settling[a] == s.settling[a]
    && OwnedBy(t.ev, a) == OwnedBy(s.ev, a)
    && forall e :: 0 <= e < |s.ev| && s.ev[e].owner == a ==>
         t.ev[e] == s.ev[e] && (e in t.raw <==> e in s.raw) && (e !in s.raw ==> (e in t.live <==> e in s.live))
  }

  /** Events moved by someone else were not mine. */
  lemma MovedNotMine(ev: seq<Event>, es: seq<nat>, from: int, to: int, a: nat)
    requires forall i :: 0 <= i < |es| ==> es[i] < |ev| && ev[es[i]].owner == from
    requires from != a && to != a
    ensures OwnedBy(Owners(ev, es, to), a) == OwnedBy(ev, a)
    ensures forall e :: 0 <= e < |ev| && ev[e].owner == a ==> Owners(ev, es, to)[e] == ev[e] && e !in es
  {
  }

  lemma ReturnLeavesMine(s: State, b: nat, es: seq<nat>, a: nat)
    requires Inv(s) && a < |s.att| && CanReturn(s, b, es) && a != b
    ensures SameFor(s, AfterWrite(s, b, es), a) && SameFor(s, AfterDump(s, b, es), a)
  {
    MovedNotMine(s.ev, es, b, ET_SYS, a);
  }

  lemma ConductorLeavesMine(s: State, step: Step, a: nat)
    requires Inv(s) && a < |s.att| && Enabled(s, step) && Actor(step) == ET_SYS
    ensures SameFor(s, Apply(s, step), a)
  {
    assert ListHolds(s, Hands(step.station), s.lists[Hands(step.station)]);
    match step {
      case Deliver(station, to, es) => MovedNotMine(s.ev, es, ET_SYS, ET_SYS, a);
      case Recycle(station) => MovedNotMine(s.ev, s.lists[Hands(station)], ET_SYS, ET_SYS, a);
      case Clear(station, kept) =>
      case Grab(_) =>
    }
  }

  lemma ReadLeavesMine(s: State, b: nat, station: nat, k: nat, a: nat)
    requires Inv(s) && a < |s.att| && CanRead(s, b, station, k) && a != b
    ensures SameFor(s, AfterRead(s, b, station, k), a)
  {
    assert ListHolds(s, In(station), s.lists[In(station)]);
    MovedNotMine(s.ev, s.lists[In(station)][..k], ET_SYS, b, a);
  }

  /** The steps about one event of the attachment's own. */
  predicate MakesOne(step: Step) {
    step.TempMade? || step.TempNotMade? || step.Normal? || step.Age? || step.TempRemoved?
  }

  lemma MakingLeavesMine(s: State, step: Step, a: nat)
    requires Inv(s) && a < |s.att| && Enabled(s, step) && Actor(step) != a
    requires MakesOne(step)
    ensures SameFor(s, Apply(s, step), a)
  {
    SameOwners(s.ev, Apply(s, step).ev);
  }

  lemma CountingLeavesMine(s: State, step: Step, a: nat)
    requires Inv(s) && a < |s.att| && Enabled(s, step) && Actor(step) != a && Actor(step) != ET_SYS && !Moves(step)
    requires !MakesOne(step)
    ensures SameFor(s, Apply(s, step), a)
  {
    var t := Apply(s, step);
    assert t.ev == s.ev && t.raw == s.raw && t.live == s.live;
  }

  /** Whatever other attachments and the conductors do, the events an attachment owns
      stay as they are, and its own. */
  lemma OthersLeaveMine(s: State, step: Step, a: nat)
    requires Inv(s) && a < |s.att| && Enabled(s, step) && Actor(step) != a
    ensures SameFor(s, Apply(s, step), a)
  {
    if Actor(step) == ET_SYS {
      ConductorLeavesMine(s, step, a);
    } else if MakesOne(step) {
      MakingLeavesMine(s, step, a);
    } else if !Moves(step) {
      CountingLeavesMine(s, step, a);
    } else if step.Read? {
      ReadLeavesMine(s, step.a, step.station, step.k, a);
    } else {
      ReturnLeavesMine(s, step.a, step.es, a);
    }
  }

  /** Nor do they make or remove the temp files of its events. */
  ghost predicate SameFiles(s: State, t: State, a: nat) {
    forall e :: 0 <= e < |s.ev| && s.ev[e].owner == a ==> (e in t.live <==> e in s.live)
  }

  lemma OthersLeaveFiles(s: State, step: Step, a: nat)
    requires Inv(s) && a < |s.att| && Enabled(s, step) && Actor(step) != a
    ensures SameFiles(s, Apply(s, step), a)
  {
    if Actor(step) == ET_SYS {
      assert ListHolds(s, Hands(step.station), s.lists[Hands(step.station)]);
    }
  }
}
