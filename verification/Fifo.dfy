/** An ET system used as a FIFO of entries, each of them several events (et_fifo.c), as
    et_start_fifo sizes it.

    The system moves single events. The machine below does so too, with a unit for what
    a client asks for at once. With the capacity of an entry as its unit it is the
    system; with unit 1 it is a FIFO whose items are the entries. */
module Fifo {

  // ----- sizes -----

  datatype Sizes = Sizes(entries: nat, capacity: nat, blocking: bool) {
    /** What et_start_fifo accepts: at least 10 entries of at least one buffer. */
    predicate Valid() { entries > 9 && capacity > 0 }

    function Nevents(): nat { entries * capacity }

    function FreeEntries(): nat {
      var free := entries / 20;
      if free < 2 then 2 else free
    }

    /** The Users station's cue. */
    function Cue(): int { Nevents() - FreeEntries() * capacity }
  }

  /** The cue holds a whole number of entries. Those that do not fit it are a twentieth of
      all, rounded down, but at least two. */
  lemma CueHoldsEntries(z: Sizes)
    requires z.Valid()
    ensures 2 <= z.FreeEntries() < z.entries
    ensures if z.entries < 60 then z.FreeEntries() == 2 else 20 * z.FreeEntries() <= z.entries < 20 * z.FreeEntries() + 20
    ensures z.Cue() == z.capacity * (z.entries - z.FreeEntries()) && 0 < z.Cue() < z.Nevents()
  {
    Times(z.capacity, z.entries, z.FreeEntries());
  }

  lemma Times(c: nat, e: nat, f: nat)
    requires c > 0 && f <= e
    ensures e * c - f * c == c * (e - f)
    ensures (f < e ==> c * (e - f) > 0) && (f > 0 ==> f * c > 0)
  {
    assert e * c == f * c + (e - f) * c;
  }

  // ----- the lists -----

  /** GrandCentral and Users, their conductors' hands, and each client: whether it is a
      producer, whether it is attached, and what it holds. The last four are histories:
      what was put by producers, let into Users' input, and gotten by consumers; and how
      much went past the consumers unread. */
  datatype Lists = Lists(
    gcIn: seq<nat>, gcOut: seq<nat>, gcHands: seq<nat>, offered: bool,
    usersIn: seq<nat>, usersOut: seq<nat>, usersHands: seq<nat>,
    producer: seq<bool>, attached: seq<bool>, held: seq<seq<nat>>,
    put: seq<nat>, fed: seq<nat>, gotten: seq<nat>, missed: nat)
  {
    predicate Sized() { |producer| == |attached| == |held| }

    /** Users is an active station: a consumer is attached to it. */
    predicate Served()
      requires Sized()
    { exists c :: 0 <= c < |held| && !producer[c] && attached[c] }
  }

  /** unit is how much a client asks for, and cue how much Users lets in when it does
      not block. */
  datatype Kind = Kind(unit: nat, cue: nat, blocking: bool)

  datatype Step =
    | Attach(c: nat)
    | Detach(c: nat)
    | NewEntry(c: nat)
    | GetEntry(c: nat)
    | PutEntry(c: nat)
    | GrabGc
    | Offer
    | RecycleGc
    | GrabUsers
    | RecycleUsers

  function Least(a: nat, b: nat): nat { if a < b then a else b }

  predicate Enabled(k: Kind, s: Lists, step: Step)
    requires s.Sized()
  {
    match step
    case Attach(c) => c < |s.held| && !s.attached[c]
    case Detach(c) => c < |s.held| && s.attached[c]
    case NewEntry(c) => c < |s.held| && s.attached[c] && s.producer[c] && |s.held[c]| == 0 && |s.gcIn| > 0
    case GetEntry(c) => c < |s.held| && s.attached[c] && !s.producer[c] && |s.held[c]| == 0 && |s.usersIn| > 0
    case PutEntry(c) => c < |s.held| && s.attached[c] && |s.held[c]| == k.unit
    case GrabGc => |s.gcHands| == 0 && |s.gcOut| > 0 && !s.offered
    case Offer => |s.gcHands| > 0 && !s.offered
    case RecycleGc => s.offered
    case GrabUsers => |s.usersHands| == 0 && |s.usersOut| > 0
    case RecycleUsers => |s.usersHands| > 0
  }

  /** How much of what GrandCentral's conductor has in hand goes into Users' input. An idle
      station is passed by. */
  function LetIn(k: Kind, s: Lists): nat
    requires s.Sized()
  {
    if s.Served() then Room(k, |s.usersIn|, |s.gcHands|) else 0
  }

  function Room(k: Kind, queued: nat, hands: nat): (n: nat)
    ensures n <= hands
  {
    if k.blocking then hands
    else if queued < k.cue then Least(k.cue - queued, hands) else 0
  }

  function Insert(e: nat, s: seq<nat>): seq<nat> {
    if |s| == 0 || s[|s| - 1] <= e then s + [e] else Insert(e, s[..|s| - 1]) + [s[|s| - 1]]
  }

  /** et_restore_events collects what a client holds in the order of shared memory. */
  function Ascending(s: seq<nat>): seq<nat> {
    if |s| == 0 then [] else Insert(s[|s| - 1], Ascending(s[..|s| - 1]))
  }

  function Gone(s: Lists, c: nat): (t: Lists)
    requires s.Sized() && c < |s.held|
    ensures t.Sized()
  { s.(attached := s.attached[c := false], held := s.held[c := []]) }

  /** et_station_detach. What a producer holds is new and is dumped. When the last consumer
      goes, Users becomes idle and its input is flushed; what a consumer holds follows. */
  function AfterDetach(s: Lists, c: nat): (t: Lists)
    requires s.Sized() && c < |s.held|
    ensures t.Sized()
  {
    var back, t := Ascending(s.held[c]), Gone(s, c);
    if s.producer[c] then t.(gcIn := s.gcIn + back)
    else if t.Served() then t.(usersOut := s.usersOut + back)
    else Flushed(t, back)
  }

  function Flushed(s: Lists, back: seq<nat>): Lists {
    s.(usersIn := [], usersOut := s.usersOut + s.usersIn + back, missed := s.missed + |s.usersIn|)
  }

  function Apply(k: Kind, s: Lists, step: Step): (t: Lists)
    requires s.Sized() && Enabled(k, s, step)
    ensures t.Sized() && |t.held| == |s.held| && t.producer == s.producer
  {
    match step
    case Attach(c) => s.(attached := s.attached[c := true])
    case Detach(c) => AfterDetach(s, c)
    case NewEntry(c) =>
      var n := Least(k.unit, |s.gcIn|);
      s.(gcIn := s.gcIn[n..], held := s.held[c := s.gcIn[..n]])
    case GetEntry(c) =>
      var n := Least(k.unit, |s.usersIn|);
      s.(usersIn := s.usersIn[n..], held := s.held[c := s.usersIn[..n]], gotten := s.gotten + s.usersIn[..n])
    case PutEntry(c) =>
      if s.producer[c] then
        s.(gcOut := s.gcOut + s.held[c], put := s.put + s.held[c], held := s.held[c := []])
      else
        s.(usersOut := s.usersOut + s.held[c], held := s.held[c := []])
    case GrabGc => s.(gcHands := s.gcOut, gcOut := [])
    case Offer =>
      var n := LetIn(k, s);
      s.(usersIn := s.usersIn + s.gcHands[..n], gcHands := s.gcHands[n..], offered := true, fed := s.fed + s.gcHands[..n],
         missed := s.missed + |s.gcHands| - n)
    case RecycleGc => s.(gcIn := s.gcIn + s.gcHands, gcHands := [], offered := false)
    case GrabUsers => s.(usersHands := s.usersOut, usersOut := [])
    case RecycleUsers => s.(gcIn := s.gcIn + s.usersHands, usersHands := [])
  }

  ghost predicate Possible(k: Kind, s: Lists, steps: seq<Step>)
    requires s.Sized()
    decreases |steps|, 0
  {
    |steps| == 0 || (Possible(k, s, steps[..|steps| - 1]) && Enabled(k, Run(k, s, steps[..|steps| - 1]), steps[|steps| - 1]))
  }

  ghost function Run(k: Kind, s: Lists, steps: seq<Step>): (t: Lists)
    requires s.Sized() && Possible(k, s, steps)
    ensures t.Sized() && |t.held| == |s.held| && t.producer == s.producer
    decreases |steps|, 1
  {
    if |steps| == 0 then s else Apply(k, Run(k, s, steps[..|steps| - 1]), steps[|steps| - 1])
  }

  // ----- entries and their events -----

  /** The events of entry e. */
  function Block(cap: nat, e: nat): (r: seq<nat>)
    ensures |r| == cap
  {
    seq(cap, i requires 0 <= i < cap => e * cap + i)
  }

  function Flatten(cap: nat, es: seq<nat>): seq<nat> {
    if |es| == 0 then [] else Flatten(cap, es[..|es| - 1]) + Block(cap, es[|es| - 1])
  }

  lemma {:induction false} FlattenLength(cap: nat, es: seq<nat>)
    ensures |Flatten(cap, es)| == cap * |es|
  {
    if |es| > 0 {
      FlattenLength(cap, es[..|es| - 1]);
      assert cap * |es| == cap * (|es| - 1) + cap;
    }
  }

  lemma {:induction false} FlattenBoth(cap: nat, s: seq<nat>, t: seq<nat>)
    ensures Flatten(cap, s + t) == Flatten(cap, s) + Flatten(cap, t)
  {
    if |t| == 0 {
      assert s + t == s;
    } else {
      FlattenBoth(cap, s, t[..|t| - 1]);
      assert (s + t)[..|s + t| - 1] == s + t[..|t| - 1];
    }
  }

  /** Cutting between entries. */
  lemma FlattenCut(cap: nat, es: seq<nat>, n: nat)
    requires n <= |es|
    ensures cap * n <= |Flatten(cap, es)|
    ensures Flatten(cap, es)[..cap * n] == Flatten(cap, es[..n]) && Flatten(cap, es)[cap * n..] == Flatten(cap, es[n..])
  {
    FlattenBoth(cap, es[..n], es[n..]);
    FlattenLength(cap, es[..n]);
    assert es == es[..n] + es[n..];
  }

  function Each(cap: nat, held: seq<seq<nat>>): (r: seq<seq<nat>>)
    ensures |r| == |held|
  {
    seq(|held|, c requires 0 <= c < |held| => Flatten(cap, held[c]))
  }

  /** The system whose lists hold these entries, whole and in order. */
  function Events(cap: nat, s: Lists): Lists {
    Lists(Flatten(cap, s.gcIn), Flatten(cap, s.gcOut), Flatten(cap, s.gcHands), s.offered,
          Flatten(cap, s.usersIn), Flatten(cap, s.usersOut), Flatten(cap, s.usersHands), s.producer, s.attached,
          Each(cap, s.held), Flatten(cap, s.put), Flatten(cap, s.fed), Flatten(cap, s.gotten), cap * s.missed)
  }

  /** The same machine for single entries. */
  function OfEntries(k: Kind, cue: nat): Kind { Kind(1, cue, k.blocking) }

  lemma LengthZero(cap: nat, es: seq<nat>)
    requires cap > 0
    ensures |Flatten(cap, es)| == 0 <==> |es| == 0
    ensures |Flatten(cap, es)| == cap <==> |es| == 1
    ensures |es| > 0 ==> |Flatten(cap, es)| >= cap
  {
    FlattenLength(cap, es);
    if |es| > 1 { assert cap * |es| >= cap * 2; }
  }

  lemma SameEnabled(cap: nat, k: Kind, cue: nat, s: Lists, step: Step)
    requires cap > 0 && k.unit == cap && s.Sized()
    ensures Enabled(k, Events(cap, s), step) <==> Enabled(OfEntries(k, cue), s, step)
  {
    match step {
      case Attach(_) =>
      case Detach(_) =>
      case NewEntry(c) =>
        LengthZero(cap, s.gcIn);
        if c < |s.held| { LengthZero(cap, s.held[c]); }
      case GetEntry(c) =>
        LengthZero(cap, s.usersIn);
        if c < |s.held| { LengthZero(cap, s.held[c]); }
      case PutEntry(c) => if c < |s.held| { LengthZero(cap, s.held[c]); }
      case GrabGc =>
        LengthZero(cap, s.gcOut);
        LengthZero(cap, s.gcHands);
      case Offer => LengthZero(cap, s.gcHands);
      case RecycleGc =>
      case GrabUsers =>
        LengthZero(cap, s.usersOut);
        LengthZero(cap, s.usersHands);
      case RecycleUsers => LengthZero(cap, s.usersHands);
    }
  }

  /** A client that asks for an entry's worth of events gets one entry. */
  lemma TakesOne(cap: nat, es: seq<nat>)
    requires cap > 0 && |es| > 0
    ensures Least(cap, |Flatten(cap, es)|) == cap
    ensures Flatten(cap, es)[..cap] == Flatten(cap, es[..1]) && Flatten(cap, es)[cap..] == Flatten(cap, es[1..])
  {
    LengthZero(cap, es);
    FlattenCut(cap, es, 1);
  }

  lemma EachUpdate(cap: nat, held: seq<seq<nat>>, c: nat, es: seq<nat>)
    requires c < |held|
    ensures Each(cap, held[c := es]) == Each(cap, held)[c := Flatten(cap, es)]
  {
  }

  lemma SameServed(cap: nat, s: Lists)
    requires s.Sized()
    ensures Events(cap, s).Sized() && Events(cap, s).Served() == s.Served()
  {
    var t := Events(cap, s);
    assert t.producer == s.producer && t.attached == s.attached && |t.held| == |s.held|;
    if s.Served() {
      var c :| 0 <= c < |s.held| && !s.producer[c] && s.attached[c];
      assert !t.producer[c] && t.attached[c];
    }
  }

  lemma RoomWhole(cap: nat, k: Kind, cue: nat, queued: nat, hands: nat)
    requires cap > 0 && k.unit == cap && k.cue == cap * cue
    ensures Room(k, cap * queued, cap * hands) == cap * Room(OfEntries(k, cue), queued, hands)
  {
    MulOrder(cap, queued, cue);
    if queued < cue {
      assert cap * cue - cap * queued == cap * (cue - queued);
      MulOrder(cap, cue - queued, hands);
    }
  }

  lemma LetInWhole(cap: nat, k: Kind, cue: nat, s: Lists)
    requires cap > 0 && k.unit == cap && k.cue == cap * cue && s.Sized()
    ensures LetIn(k, Events(cap, s)) == cap * LetIn(OfEntries(k, cue), s)
  {
    SameServed(cap, s);
    FlattenLength(cap, s.gcHands);
    FlattenLength(cap, s.usersIn);
    RoomWhole(cap, k, cue, |s.usersIn|, |s.gcHands|);
  }

  lemma MulOrder(cap: nat, a: nat, b: nat)
    requires cap > 0
    ensures cap * a < cap * b <==> a < b
  {
    if a < b { assert cap * b == cap * a + cap * (b - a); }
    if a > b { assert cap * a == cap * b + cap * (a - b); }
  }

  lemma NewRefines(cap: nat, k: Kind, cue: nat, s: Lists, c: nat)
    requires cap > 0 && k.unit == cap && s.Sized() && Enabled(OfEntries(k, cue), s, NewEntry(c))
    requires Enabled(k, Events(cap, s), NewEntry(c))
    ensures Apply(k, Events(cap, s), NewEntry(c)) == Events(cap, Apply(OfEntries(k, cue), s, NewEntry(c)))
  {
    TakesOne(cap, s.gcIn);
    EachUpdate(cap, s.held, c, s.gcIn[..1]);
  }

  lemma GetRefines(cap: nat, k: Kind, cue: nat, s: Lists, c: nat)
    requires cap > 0 && k.unit == cap && s.Sized() && Enabled(OfEntries(k, cue), s, GetEntry(c))
    requires Enabled(k, Events(cap, s), GetEntry(c))
    ensures Apply(k, Events(cap, s), GetEntry(c)) == Events(cap, Apply(OfEntries(k, cue), s, GetEntry(c)))
  {
    TakesOne(cap, s.usersIn);
    EachUpdate(cap, s.held, c, s.usersIn[..1]);
    FlattenBoth(cap, s.gotten, s.usersIn[..1]);
  }

  lemma PutRefines(cap: nat, k: Kind, cue: nat, s: Lists, c: nat)
    requires cap > 0 && k.unit == cap && s.Sized() && Enabled(OfEntries(k, cue), s, PutEntry(c))
    requires Enabled(k, Events(cap, s), PutEntry(c))
    ensures Apply(k, Events(cap, s), PutEntry(c)) == Events(cap, Apply(OfEntries(k, cue), s, PutEntry(c)))
  {
    EachUpdate(cap, s.held, c, []);
    FlattenBoth(cap, s.gcOut, s.held[c]);
    FlattenBoth(cap, s.usersOut, s.held[c]);
    FlattenBoth(cap, s.put, s.held[c]);
  }

  lemma OfferRefines(cap: nat, k: Kind, cue: nat, s: Lists)
    requires cap > 0 && k.unit == cap && k.cue == cap * cue && s.Sized() && Enabled(OfEntries(k, cue), s, Offer)
    requires Enabled(k, Events(cap, s), Offer)
    ensures Apply(k, Events(cap, s), Offer) == Events(cap, Apply(OfEntries(k, cue), s, Offer))
  {
    var n := LetIn(OfEntries(k, cue), s);
    LetInWhole(cap, k, cue, s);
    FlattenCut(cap, s.gcHands, n);
    FlattenBoth(cap, s.usersIn, s.gcHands[..n]);
    FlattenBoth(cap, s.fed, s.gcHands[..n]);
    FlattenLength(cap, s.gcHands);
    TimesRest(cap, s.missed, |s.gcHands|, n);
  }

  lemma TimesRest(cap: nat, a: nat, b: nat, n: nat)
    requires n <= b
    ensures cap * (a + b - n) == cap * a + cap * b - cap * n
  {
    assert cap * (a + b - n) + cap * n == cap * (a + b);
  }

  lemma {:induction false} AscendingIsSame(s: seq<nat>)
    requires forall i, j :: 0 <= i < j < |s| ==> s[i] < s[j]
    ensures Ascending(s) == s
  {
    if |s| > 0 {
      AscendingIsSame(s[..|s| - 1]);
      assert s == s[..|s| - 1] + [s[|s| - 1]];
    }
  }

  /** The events of one entry lie together, so they come back as they were. */
  lemma AscendingEntry(cap: nat, es: seq<nat>)
    requires |es| <= 1
    ensures Ascending(es) == es && Ascending(Flatten(cap, es)) == Flatten(cap, es)
  {
    AscendingIsSame(es);
    if |es| == 1 {
      assert es[..0] == [] && es == [es[0]];
      AscendingIsSame(Block(cap, es[0]));
      assert Flatten(cap, es) == Block(cap, es[0]);
    }
  }

  lemma SameGone(cap: nat, s: Lists, c: nat)
    requires s.Sized() && c < |s.held|
    ensures Events(cap, s).Sized() && Gone(Events(cap, s), c) == Events(cap, Gone(s, c))
  {
    EachUpdate(cap, s.held, c, []);
  }

  lemma FlushedIs(s: Lists, back: seq<nat>, t: Lists)
    requires t == s.(usersIn := [], usersOut := t.usersOut, missed := t.missed)
    requires t.usersOut == s.usersOut + s.usersIn + back && t.missed == s.missed + |s.usersIn|
    ensures Flushed(s, back) == t
  {
  }

  lemma FlushedMissed(cap: nat, s: Lists, back: seq<nat>)
    ensures Events(cap, Flushed(s, back)).missed == Events(cap, s).missed + |Events(cap, s).usersIn|
  {
    MissedWhole(cap, s.missed, s.usersIn);
  }

  lemma FlushedOut(cap: nat, s: Lists, back: seq<nat>)
    ensures Events(cap, Flushed(s, back)).usersOut == Events(cap, s).usersOut + Events(cap, s).usersIn + Flatten(cap, back)
  {
    FlattenThree(cap, s.usersOut, s.usersIn, back);
  }

  lemma FlushedElse(cap: nat, s: Lists, back: seq<nat>)
    ensures var e, t := Events(cap, s), Events(cap, Flushed(s, back));
      t == e.(usersIn := [], usersOut := t.usersOut, missed := t.missed)
  {
  }

  lemma FlushRefines(cap: nat, s: Lists, back: seq<nat>)
    requires cap > 0
    ensures Flushed(Events(cap, s), Flatten(cap, back)) == Events(cap, Flushed(s, back))
  {
    FlushedMissed(cap, s, back);
    FlushedOut(cap, s, back);
    FlushedElse(cap, s, back);
    FlushedIs(Events(cap, s), Flatten(cap, back), Events(cap, Flushed(s, back)));
  }

  lemma FlattenThree(cap: nat, a: seq<nat>, b: seq<nat>, c: seq<nat>)
    ensures Flatten(cap, a + b + c) == Flatten(cap, a) + Flatten(cap, b) + Flatten(cap, c)
  {
    FlattenBoth(cap, a + b, c);
    FlattenBoth(cap, a, b);
  }

  lemma MissedWhole(cap: nat, missed: nat, es: seq<nat>)
    ensures cap * (missed + |es|) == cap * missed + |Flatten(cap, es)|
  {
    FlattenLength(cap, es);
    TimesRest(cap, missed, |es|, 0);
  }

  lemma ProducerGoes(cap: nat, s: Lists, c: nat)
    requires cap > 0 && s.Sized() && c < |s.held| && |s.held[c]| <= 1 && s.producer[c]
    ensures Events(cap, s).Sized() && AfterDetach(Events(cap, s), c) == Events(cap, AfterDetach(s, c))
  {
    AscendingEntry(cap, s.held[c]);
    SameGone(cap, s, c);
    FlattenBoth(cap, s.gcIn, s.held[c]);
  }

  lemma ConsumerGoes(cap: nat, s: Lists, c: nat)
    requires cap > 0 && s.Sized() && c < |s.held| && |s.held[c]| <= 1 && !s.producer[c] && Gone(s, c).Served()
    ensures Events(cap, s).Sized() && AfterDetach(Events(cap, s), c) == Events(cap, AfterDetach(s, c))
  {
    AscendingEntry(cap, s.held[c]);
    SameGone(cap, s, c);
    SameServed(cap, Gone(s, c));
    FlattenBoth(cap, s.usersOut, s.held[c]);
  }

  lemma LastGoes(cap: nat, s: Lists, c: nat)
    requires cap > 0 && s.Sized() && c < |s.held| && |s.held[c]| <= 1 && !s.producer[c] && !Gone(s, c).Served()
    ensures Events(cap, s).Sized() && AfterDetach(Events(cap, s), c) == Events(cap, AfterDetach(s, c))
  {
    AscendingEntry(cap, s.held[c]);
    SameGone(cap, s, c);
    SameServed(cap, Gone(s, c));
    FlushRefines(cap, Gone(s, c), s.held[c]);
  }

  lemma DetachRefines(cap: nat, s: Lists, c: nat)
    requires cap > 0 && s.Sized() && c < |s.held| && |s.held[c]| <= 1
    ensures Events(cap, s).Sized() && AfterDetach(Events(cap, s), c) == Events(cap, AfterDetach(s, c))
  {
    if s.producer[c] {
      ProducerGoes(cap, s, c);
    } else if Gone(s, c).Served() {
      ConsumerGoes(cap, s, c);
    } else {
      LastGoes(cap, s, c);
    }
  }

  /** The system with its single events and the FIFO of entries can take the same steps,
      and take them to the same states: no step ever tears an entry. */
  lemma StepRefines(cap: nat, k: Kind, cue: nat, s: Lists, step: Step)
    requires cap > 0 && k.unit == cap && k.cue == cap * cue && HoldsOne(s)
    ensures Enabled(k, Events(cap, s), step) <==> Enabled(OfEntries(k, cue), s, step)
    ensures Enabled(OfEntries(k, cue), s, step) ==>
              Apply(k, Events(cap, s), step) == Events(cap, Apply(OfEntries(k, cue), s, step))
  {
    SameEnabled(cap, k, cue, s, step);
    if Enabled(OfEntries(k, cue), s, step) {
      match step {
        case Attach(_) =>
        case Detach(c) => DetachRefines(cap, s, c);
        case NewEntry(c) => NewRefines(cap, k, cue, s, c);
        case GetEntry(c) => GetRefines(cap, k, cue, s, c);
        case PutEntry(c) => PutRefines(cap, k, cue, s, c);
        case Offer => OfferRefines(cap, k, cue, s);
        case GrabGc =>
        case RecycleGc => FlattenBoth(cap, s.gcIn, s.gcHands);
        case GrabUsers =>
        case RecycleUsers => FlattenBoth(cap, s.gcIn, s.usersHands);
      }
    }
  }

  /** No client holds more than one entry. */
  ghost predicate HoldsOne(s: Lists) { s.Sized() && forall c :: 0 <= c < |s.held| ==> |s.held[c]| <= 1 }

  lemma StepHoldsOne(k: Kind, s: Lists, step: Step)
    requires k.unit == 1 && HoldsOne(s) && Enabled(k, s, step)
    ensures HoldsOne(Apply(k, s, step))
  {
  }

  lemma {:induction false} RunHoldsOne(k: Kind, s: Lists, steps: seq<Step>)
    requires k.unit == 1 && HoldsOne(s) && Possible(k, s, steps)
    ensures HoldsOne(Run(k, s, steps))
  {
    if |steps| > 0 {
      RunHoldsOne(k, s, steps[..|steps| - 1]);
      StepHoldsOne(k, Run(k, s, steps[..|steps| - 1]), steps[|steps| - 1]);
    }
  }

  /** And so for whole runs. */
  lemma {:induction false} RunRefines(cap: nat, k: Kind, cue: nat, s: Lists, steps: seq<Step>)
    requires cap > 0 && k.unit == cap && k.cue == cap * cue && HoldsOne(s)
    ensures Possible(k, Events(cap, s), steps) <==> Possible(OfEntries(k, cue), s, steps)
    ensures Possible(OfEntries(k, cue), s, steps) ==>
              Run(k, Events(cap, s), steps) == Events(cap, Run(OfEntries(k, cue), s, steps))
  {
    if |steps| > 0 {
      var front, last := steps[..|steps| - 1], steps[|steps| - 1];
      RunRefines(cap, k, cue, s, front);
      if Possible(OfEntries(k, cue), s, front) {
        RunHoldsOne(OfEntries(k, cue), s, front);
        StepRefines(cap, k, cue, Run(OfEntries(k, cue), s, front), last);
      }
    }
  }

  // ----- the system et_start_fifo starts -----

  function Numbers(n: nat): seq<nat> { seq(n, i requires 0 <= i < n => i) }

  /** All of n items in GrandCentral's input, and nobody attached. */
  function Started(n: nat, producer: seq<bool>): (s: Lists)
    ensures s.Sized()
  {
    Lists(Numbers(n), [], [], false, [], [], [], producer, seq(|producer|, c => false), seq(|producer|, c => []), [], [], [], 0)
  }

  lemma {:induction false} NumbersFlatten(cap: nat, n: nat)
    ensures Numbers(n * cap) == Flatten(cap, Numbers(n))
  {
    if n > 0 {
      NumbersFlatten(cap, n - 1);
      assert Numbers(n)[..n - 1] == Numbers(n - 1);
      assert n * cap == (n - 1) * cap + cap;
      assert Numbers(n * cap) == Numbers((n - 1) * cap) + Block(cap, n - 1);
    }
  }

  lemma StartedWhole(cap: nat, n: nat, producer: seq<bool>)
    ensures Started(n * cap, producer) == Events(cap, Started(n, producer))
  {
    NumbersFlatten(cap, n);
    assert Each(cap, seq(|producer|, c => [])) == seq(|producer|, c => []);
  }

  function EventKind(z: Sizes): Kind
    requires z.Valid()
  {
    CueHoldsEntries(z);
    Kind(z.capacity, if z.blocking then z.Nevents() else z.Cue(), z.blocking)
  }

  function EntryCue(z: Sizes): nat
    requires z.Valid()
  {
    CueHoldsEntries(z);
    if z.blocking then z.entries else z.entries - z.FreeEntries()
  }

  function EntryKind(z: Sizes): Kind
    requires z.Valid()
  {
    OfEntries(EventKind(z), EntryCue(z))
  }

  /** In events the sizes are those in entries times the capacity. */
  lemma KindsAgree(z: Sizes)
    requires z.Valid()
    ensures EventKind(z).unit == z.capacity > 0 && EventKind(z).cue == z.capacity * EntryCue(z)
    ensures EntryKind(z) == OfEntries(EventKind(z), EntryCue(z)) && z.Nevents() == z.entries * z.capacity
    ensures !z.blocking ==> EntryCue(z) + z.FreeEntries() == z.entries
  {
    CueHoldsEntries(z);
    assert z.entries * z.capacity == z.capacity * z.entries;
  }

  /** Whatever its clients and conductors do, an ET system that et_start_fifo started is a
      FIFO of entries, none of which is ever torn. */
  lemma FifoOfEntries(z: Sizes, producer: seq<bool>, steps: seq<Step>)
    requires z.Valid()
    ensures var events, entries := Started(z.Nevents(), producer), Started(z.entries, producer);
      && (Possible(EventKind(z), events, steps) <==> Possible(EntryKind(z), entries, steps))
      && (Possible(EntryKind(z), entries, steps) ==>
            Run(EventKind(z), events, steps) == Events(z.capacity, Run(EntryKind(z), entries, steps)))
  {
    KindsAgree(z);
    StartedWhole(z.capacity, z.entries, producer);
    RunRefines(z.capacity, EventKind(z), EntryCue(z), Started(z.entries, producer), steps);
  }

  // ----- what holds in every state of the FIFO of entries -----

  function Join(held: seq<seq<nat>>): seq<nat> {
    if |held| == 0 then [] else Join(held[..|held| - 1]) + held[|held| - 1]
  }

  /** How many entries there are, and how often entry e is among them. */
  function Everything(s: Lists): nat {
    |s.gcIn| + |s.gcOut| + |s.gcHands| + |s.usersIn| + |s.usersOut| + |s.usersHands| + |Join(s.held)|
  }

  function Places(s: Lists, e: nat): nat {
    Copies(s.gcIn, e) + Copies(s.gcOut, e) + Copies(s.gcHands, e) + Copies(s.usersIn, e)
    + Copies(s.usersOut, e) + Copies(s.usersHands, e) + Copies(Join(s.held), e)
  }

  /** How many copies of an entry there are in a list. */
  function Copies(s: seq<nat>, e: nat): nat { multiset(s)[e] }

  ghost predicate Inv(k: Kind, n: nat, s: Lists) {
    && s.Sized()
    && Everything(s) == n
    && (forall e: nat :: Places(s, e) == if e < n then 1 else 0)
    && (forall c :: 0 <= c < |s.held| ==> |s.held[c]| <= 1)
    && (!k.blocking ==> |s.usersIn| <= k.cue)
    && Ordered(s)
  }

  /** As long as nothing was missed, what was let in is what was gotten and what is still
      there, and what was put is what was let in and what is on its way. */
  ghost predicate Ordered(s: Lists) {
    && |s.put| == |s.gotten| + |s.usersIn| + (if s.offered then 0 else |s.gcHands|) + |s.gcOut| + s.missed
    && (s.missed == 0 ==> s.fed == s.gotten + s.usersIn && s.put == s.fed + ((if s.offered then [] else s.gcHands) + s.gcOut))
  }

  lemma CopiesBoth(s: seq<nat>, t: seq<nat>, e: nat)
    ensures Copies(s + t, e) == Copies(s, e) + Copies(t, e)
  {
  }

  lemma {:induction false} JoinUpdate(held: seq<seq<nat>>, c: nat, es: seq<nat>, e: nat)
    requires c < |held|
    ensures Copies(Join(held[c := es]), e) + Copies(held[c], e) == Copies(Join(held), e) + Copies(es, e)
    ensures |Join(held[c := es])| + |held[c]| == |Join(held)| + |es|
  {
    var front, last, changed := held[..|held| - 1], held[|held| - 1], held[c := es];
    CopiesBoth(Join(front), last, e);
    CopiesBoth(Join(changed[..|held| - 1]), changed[|held| - 1], e);
    if c == |held| - 1 {
      assert changed[..|held| - 1] == front;
    } else {
      JoinUpdate(front, c, es, e);
      assert changed[..|held| - 1] == front[c := es];
    }
  }

  lemma CutCopies(s: seq<nat>, n: nat, e: nat)
    requires n <= |s|
    ensures Copies(s[..n], e) + Copies(s[n..], e) == Copies(s, e)
  {
    assert s == s[..n] + s[n..];
  }

  predicate OfConductors(step: Step) { step.GrabGc? || step.Offer? || step.RecycleGc? || step.GrabUsers? || step.RecycleUsers? }

  lemma NewKeepsPlaces(k: Kind, s: Lists, c: nat, e: nat)
    requires s.Sized() && Enabled(k, s, NewEntry(c))
    ensures Places(Apply(k, s, NewEntry(c)), e) == Places(s, e)
    ensures Everything(Apply(k, s, NewEntry(c))) == Everything(s)
  {
    var n := Least(k.unit, |s.gcIn|);
    JoinUpdate(s.held, c, s.gcIn[..n], e);
    CutCopies(s.gcIn, n, e);
  }

  lemma GetKeepsPlaces(k: Kind, s: Lists, c: nat, e: nat)
    requires s.Sized() && Enabled(k, s, GetEntry(c))
    ensures Places(Apply(k, s, GetEntry(c)), e) == Places(s, e)
    ensures Everything(Apply(k, s, GetEntry(c))) == Everything(s)
  {
    var n := Least(k.unit, |s.usersIn|);
    JoinUpdate(s.held, c, s.usersIn[..n], e);
    CutCopies(s.usersIn, n, e);
  }

  lemma PutKeepsPlaces(k: Kind, s: Lists, c: nat, e: nat)
    requires s.Sized() && Enabled(k, s, PutEntry(c))
    ensures Places(Apply(k, s, PutEntry(c)), e) == Places(s, e)
    ensures Everything(Apply(k, s, PutEntry(c))) == Everything(s)
  {
    JoinUpdate(s.held, c, [], e);
    CopiesBoth(if s.producer[c] then s.gcOut else s.usersOut, s.held[c], e);
  }

  lemma CopiesLast(s: seq<nat>, x: nat, e: nat)
    ensures Copies(s + [x], e) == Copies(s, e) + if x == e then 1 else 0
  {
    CopiesBoth(s, [x], e);
  }

  lemma {:induction false} InsertCopies(x: nat, s: seq<nat>, e: nat)
    ensures Copies(Insert(x, s), e) == Copies(s, e) + (if x == e then 1 else 0) && |Insert(x, s)| == |s| + 1
  {
    if |s| == 0 || s[|s| - 1] <= x {
      CopiesLast(s, x, e);
    } else {
      var front, last := s[..|s| - 1], s[|s| - 1];
      InsertCopies(x, front, e);
      CopiesLast(Insert(x, front), last, e);
      CopiesLast(front, last, e);
      assert s == front + [last];
    }
  }

  lemma {:induction false} AscendingCopies(s: seq<nat>, e: nat)
    ensures Copies(Ascending(s), e) == Copies(s, e) && |Ascending(s)| == |s|
  {
    if |s| > 0 {
      var front, last := s[..|s| - 1], s[|s| - 1];
      AscendingCopies(front, e);
      InsertCopies(last, Ascending(front), e);
      CopiesLast(front, last, e);
      assert s == front + [last];
    }
  }

  lemma DetachKeepsPlaces(k: Kind, s: Lists, c: nat, e: nat)
    requires s.Sized() && Enabled(k, s, Detach(c))
    ensures Places(Apply(k, s, Detach(c)), e) == Places(s, e)
    ensures Everything(Apply(k, s, Detach(c))) == Everything(s)
  {
    var back := Ascending(s.held[c]);
    JoinUpdate(s.held, c, [], e);
    AscendingCopies(s.held[c], e);
    if s.producer[c] {
      CopiesBoth(s.gcIn, back, e);
    } else if Gone(s, c).Served() {
      CopiesBoth(s.usersOut, back, e);
    } else {
      CopiesBoth(s.usersOut, s.usersIn, e);
      CopiesBoth(s.usersOut + s.usersIn, back, e);
    }
  }

  lemma ConductorKeepsPlaces(k: Kind, s: Lists, step: Step, e: nat)
    requires s.Sized() && Enabled(k, s, step) && OfConductors(step)
    ensures Places(Apply(k, s, step), e) == Places(s, e) && Everything(Apply(k, s, step)) == Everything(s)
  {
    match step {
      case Offer =>
        CutCopies(s.gcHands, LetIn(k, s), e);
        CopiesBoth(s.usersIn, s.gcHands[..LetIn(k, s)], e);
      case RecycleGc => CopiesBoth(s.gcIn, s.gcHands, e);
      case RecycleUsers => CopiesBoth(s.gcIn, s.usersHands, e);
      case GrabGc =>
      case GrabUsers =>
    }
  }

  /** No step creates or loses an entry. */
  lemma StepKeepsPlaces(k: Kind, s: Lists, step: Step, e: nat)
    requires s.Sized() && Enabled(k, s, step)
    ensures Places(Apply(k, s, step), e) == Places(s, e) && Everything(Apply(k, s, step)) == Everything(s)
  {
    if step.Attach? {
    } else if step.Detach? {
      DetachKeepsPlaces(k, s, step.c, e);
    } else if step.NewEntry? {
      NewKeepsPlaces(k, s, step.c, e);
    } else if step.GetEntry? {
      GetKeepsPlaces(k, s, step.c, e);
    } else if step.PutEntry? {
      PutKeepsPlaces(k, s, step.c, e);
    } else {
      ConductorKeepsPlaces(k, s, step, e);
    }
  }

  lemma StepKeepsOrder(k: Kind, s: Lists, step: Step)
    requires s.Sized() && Ordered(s) && Enabled(k, s, step)
    ensures Ordered(Apply(k, s, step))
  {
    if step.GetEntry? {
      GetKeepsOrder(k, s, step.c);
    } else if step.PutEntry? {
      PutKeepsOrder(k, s, step.c);
    } else if step.Detach? {
      var t := Apply(k, s, step);
      if t.missed == 0 { assert t.usersIn == s.usersIn; }
    } else if step.Offer? {
      OfferKeepsOrder(k, s);
    } else if step.GrabGc? {
      assert s.gcHands + s.gcOut == s.gcOut;
    }
  }

  lemma GetKeepsOrder(k: Kind, s: Lists, c: nat)
    requires s.Sized() && Ordered(s) && Enabled(k, s, GetEntry(c))
    ensures Ordered(Apply(k, s, GetEntry(c)))
  {
    var n := Least(k.unit, |s.usersIn|);
    assert s.usersIn == s.usersIn[..n] + s.usersIn[n..];
    assert (s.gotten + s.usersIn[..n]) + s.usersIn[n..] == s.gotten + s.usersIn;
  }

  lemma PutKeepsOrder(k: Kind, s: Lists, c: nat)
    requires s.Sized() && Ordered(s) && Enabled(k, s, PutEntry(c))
    ensures Ordered(Apply(k, s, PutEntry(c)))
  {
    var h := if s.offered then [] else s.gcHands;
    assert (h + s.gcOut) + s.held[c] == h + (s.gcOut + s.held[c]);
    assert s.fed + (h + s.gcOut) + s.held[c] == s.fed + ((h + s.gcOut) + s.held[c]);
  }

  lemma OfferKeepsOrder(k: Kind, s: Lists)
    requires s.Sized() && Ordered(s) && Enabled(k, s, Offer)
    ensures Ordered(Apply(k, s, Offer))
  {
    var n := LetIn(k, s);
    if s.missed == 0 && n == |s.gcHands| {
      assert s.gcHands[..n] == s.gcHands && s.gcHands[n..] == [];
      assert (s.gotten + s.usersIn) + s.gcHands == s.gotten + (s.usersIn + s.gcHands);
      assert s.fed + (s.gcHands + s.gcOut) == (s.fed + s.gcHands) + ([] + s.gcOut);
    }
  }

  lemma StepKeepsBounds(k: Kind, s: Lists, step: Step)
    requires k.unit == 1 && s.Sized() && Enabled(k, s, step)
    requires (forall c :: 0 <= c < |s.held| ==> |s.held[c]| <= 1) && (!k.blocking ==> |s.usersIn| <= k.cue)
    ensures var t := Apply(k, s, step);
      (forall c :: 0 <= c < |t.held| ==> |t.held[c]| <= 1) && (!k.blocking ==> |t.usersIn| <= k.cue)
  {
  }

  lemma StepKeepsInv(k: Kind, n: nat, s: Lists, step: Step)
    requires k.unit == 1 && Inv(k, n, s) && Enabled(k, s, step)
    ensures Inv(k, n, Apply(k, s, step))
  {
    StepKeepsPlaces(k, s, step, 0);
    forall e: nat ensures Places(Apply(k, s, step), e) == if e < n then 1 else 0 { StepKeepsPlaces(k, s, step, e); }
    StepKeepsOrder(k, s, step);
    StepKeepsBounds(k, s, step);
  }

  lemma {:induction false} NumbersOnce(n: nat, e: nat)
    ensures Copies(Numbers(n), e) == if e < n then 1 else 0
  {
    if n > 0 {
      NumbersOnce(n - 1, e);
      assert Numbers(n) == Numbers(n - 1) + [n - 1];
      CopiesBoth(Numbers(n - 1), [n - 1], e);
    }
  }

  lemma {:induction false} JoinNothing(held: seq<seq<nat>>)
    requires forall c :: 0 <= c < |held| ==> |held[c]| == 0
    ensures Join(held) == []
  {
    if |held| > 0 { JoinNothing(held[..|held| - 1]); }
  }

  lemma {:induction false} RunKeepsInv(k: Kind, n: nat, producer: seq<bool>, steps: seq<Step>)
    requires k.unit == 1 && Possible(k, Started(n, producer), steps)
    ensures Inv(k, n, Run(k, Started(n, producer), steps))
  {
    if |steps| == 0 {
      JoinNothing(Started(n, producer).held);
      forall e: nat ensures Places(Started(n, producer), e) == if e < n then 1 else 0 { NumbersOnce(n, e); }
    } else {
      RunKeepsInv(k, n, producer, steps[..|steps| - 1]);
      StepKeepsInv(k, n, Run(k, Started(n, producer), steps[..|steps| - 1]), steps[|steps| - 1]);
    }
  }

  lemma {:induction false} InJoin(held: seq<seq<nat>>, c: nat, e: nat)
    requires c < |held| && e in held[c]
    ensures e in Join(held)
  {
    if c < |held| - 1 { InJoin(held[..|held| - 1], c, e); }
  }

  /** In every reachable state every list holds a whole number of entries, and a client
      holds nothing or exactly the events of one entry: et_fifo_newEntry and
      et_fifo_getEntry never get less than they ask for. */
  lemma WholeEntries(z: Sizes, producer: seq<bool>, steps: seq<Step>, c: nat)
    requires z.Valid() && c < |producer| && Possible(EventKind(z), Started(z.Nevents(), producer), steps)
    ensures var s := Run(EventKind(z), Started(z.Nevents(), producer), steps);
      && (|s.held[c]| == 0 || exists e :: 0 <= e < z.entries && s.held[c] == Block(z.capacity, e))
      && Whole(z.capacity, s.gcIn) && Whole(z.capacity, s.gcOut) && Whole(z.capacity, s.gcHands)
      && Whole(z.capacity, s.usersIn) && Whole(z.capacity, s.usersOut) && Whole(z.capacity, s.usersHands)
  {
    FifoOfEntries(z, producer, steps);
    var k, cap := EntryKind(z), z.capacity;
    var s := Run(k, Started(z.entries, producer), steps);
    RunKeepsInv(k, z.entries, producer, steps);
    FlattenWhole(cap, s.gcIn);
    FlattenWhole(cap, s.gcOut);
    FlattenWhole(cap, s.gcHands);
    FlattenWhole(cap, s.usersIn);
    FlattenWhole(cap, s.usersOut);
    FlattenWhole(cap, s.usersHands);
    if |s.held[c]| == 1 {
      var e := s.held[c][0];
      InJoin(s.held, c, e);
      assert Copies(Join(s.held), e) > 0;
      assert Places(s, e) > 0;
      assert s.held[c] == [e];
      FlattenOne(cap, e);
    }
  }

  ghost predicate Whole(cap: nat, s: seq<nat>) { exists n: nat :: |s| == cap * n }

  lemma FlattenWhole(cap: nat, es: seq<nat>)
    ensures Whole(cap, Flatten(cap, es))
  {
    FlattenLength(cap, es);
  }

  lemma FlattenOne(cap: nat, e: nat)
    ensures Flatten(cap, [e]) == Block(cap, e)
  {
    assert [e][..0] == [];
  }

  /** Only producers are attached. */
  predicate NoConsumer(s: Lists)
    requires s.Sized()
  { forall c :: 0 <= c < |s.held| && s.attached[c] ==> s.producer[c] }

  /** Client c is the only consumer attached. */
  predicate LastConsumer(s: Lists, c: nat)
    requires s.Sized() && c < |s.held|
  { !s.producer[c] && forall d :: 0 <= d < |s.held| && s.attached[d] && !s.producer[d] ==> d == c }

  /** The step lets something past the consumers: nobody is attached to Users, or Users does
      not block and has no room for all that is offered; or the last consumer leaves some
      unread. */
  predicate Misses(k: Kind, s: Lists, step: Step)
    requires s.Sized() && Enabled(k, s, step)
  {
    || (step.Offer? && (NoConsumer(s) || (!k.blocking && |s.usersIn| + |s.gcHands| > k.cue)))
    || (step.Detach? && LastConsumer(s, step.c) && |s.usersIn| > 0)
  }

  lemma ServedIff(s: Lists)
    requires s.Sized()
    ensures s.Served() <==> !NoConsumer(s)
  {
  }

  lemma GoneServedIff(s: Lists, c: nat)
    requires s.Sized() && c < |s.held| && !s.producer[c]
    ensures Gone(s, c).Served() <==> !LastConsumer(s, c)
  {
    var t := Gone(s, c);
    if d :| 0 <= d < |s.held| && s.attached[d] && !s.producer[d] && d != c {
      assert !t.producer[d] && t.attached[d];
    }
  }

  /** An offer to Users: nothing goes in while no consumer is attached; everything does when
      it blocks; and otherwise as much as there is room for, the oldest first. */
  lemma OfferLetsIn(k: Kind, s: Lists, n: nat)
    requires s.Sized() && Enabled(k, s, Offer)
    requires n == if NoConsumer(s) then 0
                  else if k.blocking || |s.usersIn| + |s.gcHands| <= k.cue then |s.gcHands|
                  else if |s.usersIn| < k.cue then k.cue - |s.usersIn| else 0
    ensures n <= |s.gcHands| && Apply(k, s, Offer).usersIn == s.usersIn + s.gcHands[..n]
    ensures Apply(k, s, Offer).gcHands == s.gcHands[n..] && Apply(k, s, Offer).fed == s.fed + s.gcHands[..n]
    ensures Misses(k, s, Offer) <==> n < |s.gcHands|
  {
    ServedIff(s);
  }

  lemma {:induction false} InsertSorted(e: nat, s: seq<nat>)
    requires forall i, j :: 0 <= i < j < |s| ==> s[i] <= s[j]
    ensures forall i, j :: 0 <= i < j < |Insert(e, s)| ==> Insert(e, s)[i] <= Insert(e, s)[j]
    ensures |Insert(e, s)| == |s| + 1 && forall x :: x in Insert(e, s) ==> x == e || x in s
  {
    if |s| > 0 && s[|s| - 1] > e {
      var front, last := s[..|s| - 1], s[|s| - 1];
      InsertSorted(e, front);
      forall i | 0 <= i < |s| ensures Insert(e, front)[i] <= last {
        assert Insert(e, front)[i] in Insert(e, front);
      }
    }
  }

  lemma {:induction false} AscendingSorted(s: seq<nat>)
    ensures forall i, j :: 0 <= i < j < |Ascending(s)| ==> Ascending(s)[i] <= Ascending(s)[j]
  {
    if |s| > 0 {
      AscendingSorted(s[..|s| - 1]);
      InsertSorted(s[|s| - 1], Ascending(s[..|s| - 1]));
    }
  }

  /** What a client that detaches holds goes back sorted: a producer's to GrandCentral, a
      consumer's on from Users; behind what the last consumer leaves unread there. */
  lemma DetachReturns(k: Kind, s: Lists, c: nat) returns (back: seq<nat>)
    requires s.Sized() && Enabled(k, s, Detach(c))
    ensures (forall i, j :: 0 <= i < j < |back| ==> back[i] <= back[j]) && multiset(back) == multiset(s.held[c])
    ensures var t := Apply(k, s, Detach(c));
      && t.held == s.held[c := []] && t.attached == s.attached[c := false]
      && t.gcIn == (if s.producer[c] then s.gcIn + back else s.gcIn)
      && t.usersIn == (if LastConsumer(s, c) then [] else s.usersIn)
      && t.usersOut == if s.producer[c] then s.usersOut
                       else if LastConsumer(s, c) then s.usersOut + s.usersIn + back else s.usersOut + back
  {
    back := Ascending(s.held[c]);
    AscendingSorted(s.held[c]);
    forall e: nat ensures multiset(back)[e] == multiset(s.held[c])[e] { AscendingCopies(s.held[c], e); }
    if !s.producer[c] { GoneServedIff(s, c); }
  }

  ghost predicate NoneMissed(k: Kind, s: Lists, steps: seq<Step>)
    requires s.Sized() && Possible(k, s, steps)
  {
    |steps| > 0 ==>
      && NoneMissed(k, s, steps[..|steps| - 1])
      && !Misses(k, Run(k, s, steps[..|steps| - 1]), steps[|steps| - 1])
  }

  lemma MissedGrows(k: Kind, s: Lists, step: Step)
    requires s.Sized() && Enabled(k, s, step)
    ensures Apply(k, s, step).missed >= s.missed
    ensures Apply(k, s, step).missed == s.missed <==> !Misses(k, s, step)
  {
    if step.Offer? {
      ServedIff(s);
    } else if step.Detach? && !s.producer[step.c] {
      GoneServedIff(s, step.c);
    }
  }

  lemma {:induction false} MissedIff(k: Kind, s: Lists, steps: seq<Step>)
    requires s.Sized() && Possible(k, s, steps)
    ensures Run(k, s, steps).missed >= s.missed
    ensures Run(k, s, steps).missed == s.missed <==> NoneMissed(k, s, steps)
  {
    if |steps| > 0 {
      MissedIff(k, s, steps[..|steps| - 1]);
      MissedGrows(k, Run(k, s, steps[..|steps| - 1]), steps[|steps| - 1]);
    }
  }

  /** What was put and has not yet been offered to Users. */
  function OnItsWay(s: Lists): seq<nat> { (if s.offered then [] else s.gcHands) + s.gcOut }

  /** Consumers have gotten everything in the order it was put, but for what is still in the
      queue and on its way there, if and only if no step has let something past them. */
  lemma InOrderIff(k: Kind, n: nat, producer: seq<bool>, steps: seq<Step>)
    requires k.unit == 1 && Possible(k, Started(n, producer), steps)
    ensures var s := Run(k, Started(n, producer), steps);
      InOrder(s) <==> NoneMissed(k, Started(n, producer), steps)
  {
    RunKeepsInv(k, n, producer, steps);
    MissedIff(k, Started(n, producer), steps);
    var s := Run(k, Started(n, producer), steps);
    if InOrder(s) {
      assert |s.put| == |s.gotten| + |s.usersIn| + |OnItsWay(s)|;
    }
  }

  /** All that was put has been gotten, or is in the queue or on its way, in order. */
  ghost predicate InOrder(s: Lists) { s.put == s.gotten + s.usersIn + OnItsWay(s) }

  lemma FlattenOrder(cap: nat, s: Lists)
    requires cap > 0 && InOrder(s)
    ensures InOrder(Events(cap, s))
  {
    FlattenBoth(cap, if s.offered then [] else s.gcHands, s.gcOut);
    FlattenBoth(cap, s.gotten, s.usersIn);
    FlattenBoth(cap, s.gotten + s.usersIn, OnItsWay(s));
  }

  /** What was missed is missing. */
  lemma OrderNeedsAll(n: nat, k: Kind, cap: nat, s: Lists)
    requires cap > 0 && Inv(k, n, s) && InOrder(Events(cap, s))
    ensures s.missed == 0
  {
    var h := if s.offered then [] else s.gcHands;
    FlattenBoth(cap, h, s.gcOut);
    FlattenLength(cap, s.put);
    FlattenLength(cap, s.gotten);
    FlattenLength(cap, s.usersIn);
    FlattenLength(cap, h + s.gcOut);
    var b := |s.gotten| + |s.usersIn| + |h + s.gcOut|;
    assert cap * |s.put| == cap * b by { ThreeTimes(cap, |s.gotten|, |s.usersIn|, |h + s.gcOut|); }
    MulOrder(cap, b, |s.put|);
  }

  lemma ThreeTimes(cap: nat, a: nat, b: nat, c: nat)
    ensures cap * (a + b + c) == cap * a + cap * b + cap * c
  {
  }

  /** In the system that et_start_fifo started: the events come to the consumers in the order
      they were put, and none is left out, if and only if nothing is offered while nobody is
      attached to Users or Users is full and does not block, and the last consumer never
      leaves with some unread. */
  lemma FirstInFirstOut(z: Sizes, producer: seq<bool>, steps: seq<Step>)
    requires z.Valid() && Possible(EventKind(z), Started(z.Nevents(), producer), steps)
    ensures var s := Run(EventKind(z), Started(z.Nevents(), producer), steps);
      InOrder(s) <==> NoneMissed(EventKind(z), Started(z.Nevents(), producer), steps)
  {
    FifoOfEntries(z, producer, steps);
    var k, t := EntryKind(z), Run(EntryKind(z), Started(z.entries, producer), steps);
    RunKeepsInv(k, z.entries, producer, steps);
    MissedIff(EventKind(z), Started(z.Nevents(), producer), steps);
    MissedIff(k, Started(z.entries, producer), steps);
    MulOrder(z.capacity, 0, t.missed);
    if InOrder(Events(z.capacity, t)) {
      OrderNeedsAll(z.entries, k, z.capacity, t);
    } else if t.missed == 0 {
      InOrderIff(k, z.entries, producer, steps);
      FlattenOrder(z.capacity, t);
    }
  }

  lemma {:induction false} StaysAttached(k: Kind, s: Lists, steps: seq<Step>, c: nat)
    requires s.Sized() && Possible(k, s, steps) && c < |s.held| && !s.producer[c] && k.blocking
    requires |steps| > 0 && steps[0] == Attach(c) && Detach(c) !in steps
    ensures Run(k, s, steps).attached[c] && NoneMissed(k, s, steps)
  {
    var front, last := steps[..|steps| - 1], steps[|steps| - 1];
    if |steps| == 1 {
      assert front == [];
    } else {
      StaysAttached(k, s, front, c);
      assert last in steps;
      AttachedMissesNothing(k, Run(k, s, front), last, c);
    }
  }

  lemma AttachedMissesNothing(k: Kind, s: Lists, step: Step, c: nat)
    requires s.Sized() && Enabled(k, s, step) && k.blocking && step != Detach(c)
    requires c < |s.held| && !s.producer[c] && s.attached[c]
    ensures Apply(k, s, step).attached[c] && !Misses(k, s, step)
  {
    assert s.Served();
  }

  /** So in a blocking FIFO with one consumer that attaches first and stays, whatever other
      clients come and go, consumers miss nothing. */
  lemma OneStayingConsumer(z: Sizes, producer: seq<bool>, steps: seq<Step>, c: nat)
    requires z.Valid() && z.blocking && Possible(EventKind(z), Started(z.Nevents(), producer), steps)
    requires c < |producer| && !producer[c] && |steps| > 0 && steps[0] == Attach(c) && Detach(c) !in steps
    ensures InOrder(Run(EventKind(z), Started(z.Nevents(), producer), steps))
  {
    StaysAttached(EventKind(z), Started(z.Nevents(), producer), steps, c);
    FirstInFirstOut(z, producer, steps);
  }

  /** Without a consumer an entry that is put comes back to GrandCentral unread. */
  const UNSERVED: seq<Step> := [] + [Attach(0)] + [NewEntry(0)] + [PutEntry(0)] + [GrabGc] + [Offer] + [RecycleGc]

  lemma Then(k: Kind, s: Lists, steps: seq<Step>, t: Lists, step: Step)
    requires s.Sized() && Possible(k, s, steps) && Run(k, s, steps) == t && Enabled(k, t, step)
    ensures Possible(k, s, steps + [step]) && Run(k, s, steps + [step]) == Apply(k, t, step)
  {
    assert (steps + [step])[..|steps|] == steps;
  }

  /** One producer, no consumer. */
  function Alone(gcIn: seq<nat>, gcOut: seq<nat>, gcHands: seq<nat>, offered: bool, held: seq<nat>, put: seq<nat>, missed: nat): Lists {
    Lists(gcIn, gcOut, gcHands, offered, [], [], [], [true], [true], [held], put, [], [], missed)
  }

  lemma EntryIsNew(k: Kind, rest: seq<nat>, s: Lists)
    requires k.unit == 1
    requires s == Lists([0] + rest, [], [], false, [], [], [], [true], [false], [[]], [], [], [], 0)
    ensures Possible(k, s, [] + [Attach(0)] + [NewEntry(0)])
    ensures Run(k, s, [] + [Attach(0)] + [NewEntry(0)]) == Alone(rest, [], [], false, [0], [], 0)
  {
    var t := Alone([0] + rest, [], [], false, [], [], 0);
    Then(k, s, [], s, Attach(0));
    assert s.attached[0 := true] == [true];
    assert ([0] + rest)[..1] == [0] && ([0] + rest)[1..] == rest && t.held[0 := [0]] == [[0]];
    Then(k, s, [] + [Attach(0)], t, NewEntry(0));
  }

  lemma EntryIsPut(k: Kind, rest: seq<nat>, s: Lists)
    requires k.unit == 1
    requires s == Lists([0] + rest, [], [], false, [], [], [], [true], [false], [[]], [], [], [], 0)
    ensures Possible(k, s, [] + [Attach(0)] + [NewEntry(0)] + [PutEntry(0)])
    ensures Run(k, s, [] + [Attach(0)] + [NewEntry(0)] + [PutEntry(0)]) == Alone(rest, [0], [], false, [], [0], 0)
  {
    EntryIsNew(k, rest, s);
    var u := Alone(rest, [], [], false, [0], [], 0);
    assert u.gcOut + [0] == [0] && u.held[0 := []] == [[]];
    Then(k, s, [] + [Attach(0)] + [NewEntry(0)], u, PutEntry(0));
  }

  lemma Unserved(k: Kind, rest: seq<nat>, s: Lists)
    requires k.unit == 1
    requires s == Lists([0] + rest, [], [], false, [], [], [], [true], [false], [[]], [], [], [], 0)
    ensures Possible(k, s, UNSERVED) && Run(k, s, UNSERVED) == Alone(rest + [0], [], [], false, [], [0], 1)
    ensures !InOrder(Run(k, s, UNSERVED))
  {
    EntryIsPut(k, rest, s);
    var steps := [] + [Attach(0)] + [NewEntry(0)] + [PutEntry(0)];
    Then(k, s, steps, Alone(rest, [0], [], false, [], [0], 0), GrabGc);
    var t := Alone(rest, [], [0], false, [], [0], 0);
    assert !t.Served() && [0][..0] == [] && [0][0..] == [0] && t.usersIn + [] == [];
    Then(k, s, steps + [GrabGc], t, Offer);
    Then(k, s, steps + [GrabGc] + [Offer], Alone(rest, [], [0], true, [], [0], 1), RecycleGc);
    assert steps + [GrabGc] + [Offer] + [RecycleGc] == UNSERVED;
  }

  /** So it is of an entry of any size in a FIFO of any kind. */
  lemma NobodyServed(z: Sizes)
    requires z.Valid()
    ensures Possible(EventKind(z), Started(z.Nevents(), [true]), UNSERVED)
    ensures !InOrder(Run(EventKind(z), Started(z.Nevents(), [true]), UNSERVED))
    ensures z.capacity <= z.Nevents() &&
      Run(EventKind(z), Started(z.Nevents(), [true]), UNSERVED).gcIn == Numbers(z.Nevents())[z.capacity..] + Block(z.capacity, 0)
  {
    var n, k, rest := z.entries, EntryKind(z), Numbers(z.entries)[1..];
    KindsAgree(z);
    assert Numbers(n) == [0] + rest;
    Unserved(k, rest, Started(n, [true]));
    FifoOfEntries(z, [true], UNSERVED);
    FirstInFirstOut(z, [true], UNSERVED);
    MissedIff(EventKind(z), Started(z.Nevents(), [true]), UNSERVED);
    MulOrder(z.capacity, 0, 1);
    RestThenFirst(z.capacity, n);
  }

  lemma RestThenFirst(cap: nat, n: nat)
    requires n > 0
    ensures cap <= n * cap && Flatten(cap, Numbers(n)[1..] + [0]) == Numbers(n * cap)[cap..] + Block(cap, 0)
  {
    NumbersFlatten(cap, n);
    FlattenCut(cap, Numbers(n), 1);
    FlattenBoth(cap, Numbers(n)[1..], [0]);
    FlattenOne(cap, 0);
  }

  // ----- a full Users queue does not starve the producers -----

  /** When the clients together hold fewer entries than the queue leaves free, some entry
      is neither with a client nor in the queue. */
  lemma NotStarved(k: Kind, n: nat, s: Lists, free: nat)
    requires Inv(k, n, s) && !k.blocking && k.cue + free == n && |Join(s.held)| < free
    ensures |s.gcIn| + |s.gcOut| + |s.gcHands| + |s.usersOut| + |s.usersHands| > 0
  {
  }

  /** What the conductors have still to do. */
  function Rank(s: Lists): nat {
    6 * |s.gcOut| + 3 * |s.gcHands| + 2 * |s.usersOut| + |s.usersHands| + if s.offered then 1 else if |s.gcHands| > 0 then 2 else 0
  }

  lemma ConductorsProgress(k: Kind, s: Lists, step: Step)
    requires s.Sized() && OfConductors(step) && Enabled(k, s, step)
    ensures Rank(Apply(k, s, step)) < Rank(s)
    ensures Apply(k, s, step).held == s.held && Apply(k, s, step).attached == s.attached
  {
  }

  /** Conductors that have work can do some. */
  ghost predicate Idle(k: Kind, s: Lists)
    requires s.Sized()
  { forall step :: OfConductors(step) ==> !Enabled(k, s, step) }

  lemma IdleIsDone(k: Kind, s: Lists)
    requires s.Sized() && Idle(k, s)
    ensures Rank(s) == 0
  {
    assert !Enabled(k, s, RecycleUsers) && !Enabled(k, s, GrabUsers);
    assert !Enabled(k, s, RecycleGc) && !Enabled(k, s, Offer) && !Enabled(k, s, GrabGc);
  }

  /** A run, from its first step on. */
  ghost predicate Leads(k: Kind, s: Lists, steps: seq<Step>)
    requires s.Sized()
    decreases |steps|
  {
    |steps| == 0 || (Enabled(k, s, steps[0]) && Leads(k, Apply(k, s, steps[0]), steps[1..]))
  }

  ghost function After(k: Kind, s: Lists, steps: seq<Step>): (t: Lists)
    requires s.Sized() && Leads(k, s, steps)
    ensures t.Sized() && |t.held| == |s.held| && t.producer == s.producer
    decreases |steps|
  {
    if |steps| == 0 then s else After(k, Apply(k, s, steps[0]), steps[1..])
  }

  /** However the conductors take turns, they are done within a bound, and then a producer
      that is attached and holds nothing can have an entry: a Users queue that nobody
      empties does not stop it. */
  lemma {:induction false} ProducerIsServed(k: Kind, n: nat, s: Lists, free: nat, p: nat, steps: seq<Step>)
    requires k.unit == 1 && Inv(k, n, s) && !k.blocking && k.cue + free == n && |Join(s.held)| < free
    requires p < |s.held| && s.producer[p] && s.attached[p] && |s.held[p]| == 0
    requires Leads(k, s, steps) && forall i :: 0 <= i < |steps| ==> OfConductors(steps[i])
    ensures |steps| <= Rank(s)
    ensures Idle(k, After(k, s, steps)) ==> Enabled(k, After(k, s, steps), NewEntry(p))
    decreases |steps|
  {
    if |steps| == 0 {
      NotStarved(k, n, s, free);
      if Idle(k, s) { IdleIsDone(k, s); }
    } else {
      ConductorsProgress(k, s, steps[0]);
      StepKeepsInv(k, n, s, steps[0]);
      ProducerIsServed(k, n, Apply(k, s, steps[0]), free, p, steps[1..]);
    }
  }

  lemma {:induction false} LeadsRefines(cap: nat, k: Kind, cue: nat, s: Lists, steps: seq<Step>)
    requires cap > 0 && k.unit == cap && k.cue == cap * cue && HoldsOne(s)
    ensures Leads(k, Events(cap, s), steps) <==> Leads(OfEntries(k, cue), s, steps)
    ensures Leads(k, Events(cap, s), steps) ==>
              After(k, Events(cap, s), steps) == Events(cap, After(OfEntries(k, cue), s, steps))
              && HoldsOne(After(OfEntries(k, cue), s, steps))
    decreases |steps|
  {
    if |steps| > 0 {
      StepRefines(cap, k, cue, s, steps[0]);
      if Enabled(OfEntries(k, cue), s, steps[0]) {
        StepHoldsOne(OfEntries(k, cue), s, steps[0]);
        LeadsRefines(cap, k, cue, Apply(OfEntries(k, cue), s, steps[0]), steps[1..]);
      }
    }
  }

  lemma IdleRefines(cap: nat, k: Kind, cue: nat, s: Lists)
    requires cap > 0 && k.unit == cap && k.cue == cap * cue && HoldsOne(s) && Idle(k, Events(cap, s))
    ensures Idle(OfEntries(k, cue), s)
  {
    forall step | OfConductors(step) ensures !Enabled(OfEntries(k, cue), s, step) { StepRefines(cap, k, cue, s, step); }
  }

  lemma {:induction false} JoinFlat(cap: nat, held: seq<seq<nat>>)
    ensures Join(Each(cap, held)) == Flatten(cap, Join(held))
  {
    if |held| > 0 {
      JoinFlat(cap, held[..|held| - 1]);
      assert Each(cap, held)[..|held| - 1] == Each(cap, held[..|held| - 1]);
      FlattenBoth(cap, Join(held[..|held| - 1]), held[|held| - 1]);
    }
  }

  /** In the nonblocking FIFO that et_start_fifo started, whatever has happened so far: when
      the conductors have done what they have to do, in whatever order, a producer that
      holds nothing is served, if all clients together hold fewer entries than the Users
      queue leaves free. */
  lemma NeverStarves(z: Sizes, producer: seq<bool>, steps: seq<Step>, p: nat, more: seq<Step>)
    requires z.Valid() && !z.blocking && p < |producer| && producer[p]
    requires Possible(EventKind(z), Started(z.Nevents(), producer), steps)
    requires var s := Run(EventKind(z), Started(z.Nevents(), producer), steps);
      && s.attached[p] && |s.held[p]| == 0 && |Join(s.held)| < z.capacity * z.FreeEntries()
      && Leads(EventKind(z), s, more) && forall i :: 0 <= i < |more| ==> OfConductors(more[i])
    ensures var s := Run(EventKind(z), Started(z.Nevents(), producer), steps);
      && |more| <= Rank(s)
      && (Idle(EventKind(z), After(EventKind(z), s, more)) ==> Enabled(EventKind(z), After(EventKind(z), s, more), NewEntry(p)))
  {
    FifoOfEntries(z, producer, steps);
    KindsAgree(z);
    var k, t := EntryKind(z), Run(EntryKind(z), Started(z.entries, producer), steps);
    RunKeepsInv(k, z.entries, producer, steps);
    LengthZero(z.capacity, t.held[p]);
    FewerHeld(z.capacity, t, z.FreeEntries());
    ConductorsWithin(EventKind(z), Events(z.capacity, t), more);
    ServedByEvents(z.capacity, EventKind(z), EntryCue(z), z.entries, t, z.FreeEntries(), p, more);
  }

  /** Fewer events held than so many entries: fewer entries. */
  lemma FewerHeld(cap: nat, t: Lists, free: nat)
    requires cap > 0 && |Join(Events(cap, t).held)| < cap * free
    ensures |Join(t.held)| < free
  {
    JoinFlat(cap, t.held);
    FlattenLength(cap, Join(t.held));
    MulOrder(cap, |Join(t.held)|, free);
  }

  lemma ServedByEvents(cap: nat, k: Kind, cue: nat, n: nat, t: Lists, free: nat, p: nat, more: seq<Step>)
    requires cap > 0 && k.unit == cap && k.cue == cap * cue && !k.blocking && cue + free == n
    requires Inv(OfEntries(k, cue), n, t)
    requires p < |t.held| && t.producer[p] && t.attached[p] && |t.held[p]| == 0 && |Join(t.held)| < free
    requires Leads(k, Events(cap, t), more) && forall i :: 0 <= i < |more| ==> OfConductors(more[i])
    ensures var u := After(k, Events(cap, t), more); Idle(k, u) ==> Enabled(k, u, NewEntry(p))
  {
    LeadsRefines(cap, k, cue, t, more);
    var u := After(OfEntries(k, cue), t, more);
    ProducerIsServed(OfEntries(k, cue), n, t, free, p, more);
    if Idle(k, Events(cap, u)) {
      IdleRefines(cap, k, cue, u);
      StepRefines(cap, k, cue, u, NewEntry(p));
    }
  }

  lemma {:induction false} ConductorsWithin(k: Kind, s: Lists, steps: seq<Step>)
    requires s.Sized() && Leads(k, s, steps) && forall i :: 0 <= i < |steps| ==> OfConductors(steps[i])
    ensures |steps| <= Rank(s)
    decreases |steps|
  {
    if |steps| > 0 {
      ConductorsProgress(k, s, steps[0]);
      ConductorsWithin(k, Apply(k, s, steps[0]), steps[1..]);
    }
  }

  /** What et_fifo_open works out from the number of events and groups is the capacity. */
  lemma OpenFindsCapacity(z: Sizes)
    requires z.Valid()
    ensures z.Nevents() % z.entries == 0 && z.Nevents() / z.entries == z.capacity
  {
    var q, r := z.Nevents() / z.entries, z.Nevents() % z.entries;
    assert z.entries * q + r == z.entries * z.capacity;
    assert z.entries * (z.capacity - q) == r;
    SmallMultiple(z.entries, z.capacity - q);
  }

  lemma SmallMultiple(c: int, d: int)
    requires 0 <= c * d < c
    ensures d == 0
  {
    assert d >= 1 ==> c * d >= c;
    assert d <= -1 ==> c * d <= -c;
  }

  // ----- the buffers of one entry -----

  /** Buffer i of an entry is used when its id is not -1. In a fresh entry the used
      buffers come first, each with an id of its own. */
  ghost predicate Tidy(ids: seq<int>, used: nat) {
    && used <= |ids|
    && (forall i :: 0 <= i < used ==> ids[i] != -1)
    && (forall i, j :: 0 <= i < j < used ==> ids[i] != ids[j])
    && (forall i :: used <= i < |ids| ==> ids[i] == -1)
  }

  /** The map an entry stands for: the buffer of each id. */
  ghost function Buffers(ids: seq<int>, used: nat): map<int, nat>
    requires Tidy(ids, used)
    decreases used
  {
    if used == 0 then map[]
    else
      Buffers(ids[used - 1 := -1], used - 1)[ids[used - 1] := used - 1]
  }

  lemma {:induction false} BuffersHold(ids: seq<int>, used: nat)
    requires Tidy(ids, used)
    ensures forall i :: 0 <= i < used ==> ids[i] in Buffers(ids, used) && Buffers(ids, used)[ids[i]] == i
    ensures forall id :: id in Buffers(ids, used) ==> 0 <= Buffers(ids, used)[id] < used && ids[Buffers(ids, used)[id]] == id
    ensures |Buffers(ids, used)| == used
    decreases used
  {
    if used > 0 {
      var rest := ids[used - 1 := -1];
      BuffersHold(rest, used - 1);
      assert forall i :: 0 <= i < used - 1 ==> rest[i] == ids[i];
      assert ids[used - 1] !in Buffers(rest, used - 1);
    }
  }

  /** The first buffer that has this id or is free, -1 if none. */
  function FirstFor(ids: seq<int>, id: int): (r: int)
    ensures -1 <= r < |ids|
    ensures r >= 0 ==> ids[r] == id || ids[r] == -1
    ensures forall j :: 0 <= j < (if r == -1 then |ids| else r) ==> ids[j] != id && ids[j] != -1
  {
    if |ids| == 0 then -1
    else if ids[0] == id || ids[0] == -1 then 0
    else
      var r := FirstFor(ids[1..], id);
      if r == -1 then -1 else r + 1
  }

  function Free(n: nat): seq<int> { seq(n, i => -1) }

  class Entry {
    const control: array<int>      // control[0] of each of the entry's events
    const length: array<nat>

    ghost predicate Valid() { control.Length == length.Length }

    constructor (capacity: nat)
      ensures Valid() && control.Length == capacity && fresh(control) && fresh(length)
    {
      control := new int[capacity];
      length := new nat[capacity];
    }

    /** The end of et_fifo_newEntry: name the buffers, whatever the names, and clear their
        lengths. */
    method Fill(bufIds: seq<int>)
      requires Valid() && |bufIds| <= control.Length
      modifies control, length
      ensures control[..] == bufIds + Free(control.Length - |bufIds|)
      ensures forall i :: 0 <= i < length.Length ==> length[i] == 0
    {
      for i := 0 to |bufIds|
        invariant control[..i] == bufIds[..i] && forall j :: 0 <= j < i ==> length[j] == 0
      {
        control[i] := bufIds[i];
        length[i] := 0;
      }
      for i := |bufIds| to control.Length
        invariant control[..|bufIds|] == bufIds && forall j :: |bufIds| <= j < i ==> control[j] == -1
        invariant forall j :: 0 <= j < i ==> length[j] == 0
      {
        control[i] := -1;
        length[i] := 0;
      }
    }

    /** et_fifo_getBuf. */
    method GetBuf(id: int) returns (buf: int)
      requires Valid()
      modifies control
      ensures buf == FirstFor(old(control[..]), id)
      ensures control[..] == if buf == -1 then old(control[..]) else old(control[..])[buf := id]
    {
      ghost var was := control[..];
      for i := 0 to control.Length
        invariant control[..] == was && forall j :: 0 <= j < i ==> was[j] != id && was[j] != -1
      {
        var c0 := control[i];
        if c0 == id {
          assert was[i := id] == was;
          return i;
        }
        if c0 == -1 {
          control[i] := id;
          return i;
        }
      }
      buf := -1;
    }
  }

  /** An entry behaves as a map from ids to buffers: a known id has its buffer, a new one
      gets the next that is free, and there is none for it exactly when all are taken. */
  lemma GetIsMap(ids: seq<int>, used: nat, id: int)
    requires Tidy(ids, used) && id != -1
    ensures id in Buffers(ids, used) ==> FirstFor(ids, id) == Buffers(ids, used)[id]
    ensures id !in Buffers(ids, used) && used < |ids| ==>
      && FirstFor(ids, id) == used && Tidy(ids[used := id], used + 1)
      && Buffers(ids[used := id], used + 1) == Buffers(ids, used)[id := used]
    ensures id !in Buffers(ids, used) && used == |ids| ==> FirstFor(ids, id) == -1
  {
    BuffersHold(ids, used);
    if id in Buffers(ids, used) {
      FirstIsKnown(ids, used, id, Buffers(ids, used)[id]);
    } else {
      FirstIsFree(ids, used, id);
      if used < |ids| {
        assert ids[used := id][used := -1] == ids;
        var more := ids[used := id];
        assert forall i, j :: 0 <= i < j < used + 1 ==> more[i] != more[j];
      }
    }
  }

  lemma FirstIsKnown(ids: seq<int>, used: nat, id: int, i: nat)
    requires Tidy(ids, used) && i < used && ids[i] == id
    ensures FirstFor(ids, id) == i
  {
  }

  lemma FirstIsFree(ids: seq<int>, used: nat, id: int)
    requires Tidy(ids, used) && forall i :: 0 <= i < used ==> ids[i] != id
    ensures FirstFor(ids, id) == if used < |ids| then used else -1
  {
    if used < |ids| { assert ids[used] == -1; }
  }

  /** An entry finds every buffer that has an id by that id. */
  ghost predicate FindsAll(ids: seq<int>) { forall i: nat :: Finds(ids, i) }

  predicate Finds(ids: seq<int>, i: nat) { i < |ids| && ids[i] != -1 ==> FirstFor(ids, ids[i]) == i }

  /** An entry filled with these ids does so if and only if they are distinct and -1 only at
      the end. */
  lemma FilledFindsIff(bufIds: seq<int>, n: nat)
    ensures FindsAll(bufIds + Free(n)) <==> exists used: nat :: Tidy(bufIds, used)
  {
    var ids := bufIds + Free(n);
    if FindsAll(ids) {
      var k := FirstFor(ids, -1);
      var used := if k == -1 || k > |bufIds| then |bufIds| else k;
      forall i, j | 0 <= i < j < used ensures bufIds[i] != bufIds[j] {
        assert ids[i] == bufIds[i] && ids[j] == bufIds[j] && Finds(ids, i) && Finds(ids, j);
      }
      forall i | 0 <= i < |bufIds| ensures if i < used then bufIds[i] != -1 else bufIds[i] == -1 {
        assert ids[i] == bufIds[i];
        if i >= used { FreeAfterFree(ids, used, i); }
      }
      assert Tidy(bufIds, used);
    }
    if used: nat :| Tidy(bufIds, used) {
      forall i: nat ensures Finds(ids, i) {
        if i < |ids| && ids[i] != -1 {
          assert i < used && forall j :: 0 <= j < used ==> ids[j] == bufIds[j];
          FirstIs(ids, ids[i], i);
        }
      }
    }
  }

  lemma NotBehindFree(ids: seq<int>, id: int, k: nat)
    requires k < |ids| && ids[k] == -1
    ensures 0 <= FirstFor(ids, id) <= k
  {
  }

  /** Behind a free buffer a buffer must be free. */
  lemma FreeAfterFree(ids: seq<int>, k: nat, i: nat)
    requires k <= i < |ids| && ids[k] == -1 && Finds(ids, i)
    ensures ids[i] == -1
  {
    NotBehindFree(ids, ids[i], k);
  }

  lemma FirstIs(ids: seq<int>, id: int, r: nat)
    requires r < |ids| && (ids[r] == id || ids[r] == -1) && forall j :: 0 <= j < r ==> ids[j] != id && ids[j] != -1
    ensures FirstFor(ids, id) == r
  {
  }

  /** A buffer is lost if and only if a free one or one of the same id comes before it: its id
      then finds that one, which from then on has the id as well, so that the buffer is never
      found again. */
  lemma LostIff(ids: seq<int>, id: int, i: nat)
    requires i < |ids| && ids[i] == id && id != -1
    ensures var r := FirstFor(ids, id);
      && 0 <= r <= i && (r != i <==> exists j :: 0 <= j < i && (ids[j] == id || ids[j] == -1))
      && FirstFor(ids[r := id], id) == r && (r != i ==> ids[r := id][i] == ids[r := id][r] == id)
  {
    var r := FirstFor(ids, id);
    assert ids[i] == id;
    FirstIs(ids[r := id], id, r);
  }

  /** Whatever is asked for, an id never loses the buffer it has. */
  lemma {:induction false} BuffersGrow(ids: seq<int>, used: nat, id: int)
    requires Tidy(ids, used) && used < |ids| && id != -1 && id !in Buffers(ids, used)
    ensures Tidy(ids[used := id], used + 1)
    ensures forall other :: other in Buffers(ids, used) ==>
              other in Buffers(ids[used := id], used + 1) && Buffers(ids[used := id], used + 1)[other] == Buffers(ids, used)[other]
  {
    BuffersHold(ids, used);
    assert ids[used := id][used := -1] == ids;
  }
}
