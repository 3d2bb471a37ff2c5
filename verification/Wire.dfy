/** The monitoring data an ET system sends: how et_data.c writes it and reads it back.

    Integers travel as four bytes, most significant first. Each record is a run of
    integers, the lengths of its strings, and the strings with their closing zeros.
    A reader here that runs past the end of its buffer reads zeros; the theorems are
    about messages where no reader does. */
module Wire {

  type Byte = x: int | 0 <= x < 0x100
  type U32 = x: int | 0 <= x < 0x1_0000_0000
  type I32 = x: int | -0x8000_0000 <= x < 0x8000_0000
  type U64 = x: int | 0 <= x < 0x1_0000_0000_0000_0000

  /** A C string without its closing zero. Its length is sent as a word. */
  type Str = s: seq<Byte> | |s| < 0xFFFF_FFFF && forall i :: 0 <= i < |s| ==> s[i] != 0 witness []

  const ATTACHMENTS_MAX: nat := 100
  const SELECT_INTS: nat := 6

  // ----- integers -----

  /** An int as the unsigned word that is sent, and back. */
  function W(x: I32): U32 { if x < 0 then x + 0x1_0000_0000 else x }

  function S(w: U32): I32 { if w < 0x8000_0000 then w else w - 0x1_0000_0000 }

  function Hi(x: U64): U32 { x / 0x1_0000_0000 }

  function Lo(x: U64): U32 { x % 0x1_0000_0000 }

  function Both(hi: U32, lo: U32): U64 { hi * 0x1_0000_0000 + lo }

  function Bytes4(x: U32): (r: seq<Byte>)
    ensures |r| == 4
  {
    var upper := x / 0x100;
    var top := upper / 0x100;
    [top / 0x100, top % 0x100, upper % 0x100, x % 0x100]
  }

  function Word4(a: Byte, b: Byte, c: Byte, d: Byte): U32 {
    ((a * 0x100 + b) * 0x100 + c) * 0x100 + d
  }

  lemma WordBack(x: U32)
    ensures Word4(Bytes4(x)[0], Bytes4(x)[1], Bytes4(x)[2], Bytes4(x)[3]) == x
  {
  }

  // ----- pieces of a buffer -----

  ghost predicate At(buf: seq<Byte>, pos: nat, s: seq<Byte>) {
    pos + |s| <= |buf| && buf[pos..pos + |s|] == s
  }

  lemma AtBoth(buf: seq<Byte>, pos: nat, s: seq<Byte>, t: seq<Byte>)
    requires At(buf, pos, s + t)
    ensures At(buf, pos, s) && At(buf, pos + |s|, t)
  {
    assert buf[pos..pos + |s|] == (s + t)[..|s|];
    assert buf[pos + |s|..pos + |s + t|] == (s + t)[|s|..];
  }

  function WordAt(buf: seq<Byte>, pos: nat): U32 {
    if pos + 4 <= |buf| then Word4(buf[pos], buf[pos + 1], buf[pos + 2], buf[pos + 3]) else 0
  }

  function Words(ws: seq<U32>): (r: seq<Byte>)
    ensures |r| == 4 * |ws|
  {
    if |ws| == 0 then [] else Words(ws[..|ws| - 1]) + Bytes4(ws[|ws| - 1])
  }

  /** The next n words. */
  function Ints(buf: seq<Byte>, pos: nat, n: nat): (r: seq<U32>)
    ensures |r| == n
  {
    seq(n, i requires 0 <= i < n => WordAt(buf, pos + 4 * i))
  }

  lemma OneWordAt(buf: seq<Byte>, p: nat, x: U32)
    requires At(buf, p, Bytes4(x))
    ensures WordAt(buf, p) == x
  {
    var b := buf[p..p + 4];
    assert b[0] == buf[p] && b[1] == buf[p + 1] && b[2] == buf[p + 2] && b[3] == buf[p + 3];
    WordBack(x);
  }

  lemma IntsGrow(buf: seq<Byte>, pos: nat, n: nat)
    ensures Ints(buf, pos, n + 1) == Ints(buf, pos, n) + [WordAt(buf, pos + 4 * n)]
  {
  }

  lemma {:induction false} WordsAt(buf: seq<Byte>, pos: nat, ws: seq<U32>)
    requires At(buf, pos, Words(ws))
    ensures Ints(buf, pos, |ws|) == ws
  {
    if |ws| > 0 {
      var front, last := ws[..|ws| - 1], ws[|ws| - 1];
      AtBoth(buf, pos, Words(front), Bytes4(last));
      WordsAt(buf, pos, front);
      OneWordAt(buf, pos + 4 * |front|, last);
      IntsGrow(buf, pos, |front|);
      assert ws == front + [last];
    }
  }

  function UpToZero(s: seq<Byte>): (r: seq<Byte>)
    ensures |r| <= |s| && forall i :: 0 <= i < |r| ==> r[i] != 0
  {
    if |s| == 0 || s[0] == 0 then [] else [s[0]] + UpToZero(s[1..])
  }

  /** The C string in the next len bytes, the last of which closes it. */
  function CStr(buf: seq<Byte>, pos: nat, len: U32): Str {
    if len > 0 && pos + len <= |buf| then UpToZero(buf[pos..pos + len - 1]) else []
  }

  function Len(s: Str): U32 { |s| + 1 }

  function Z(s: Str): (r: seq<Byte>)
    ensures |r| == Len(s)
  {
    s + [0]
  }

  lemma {:induction false} StrBack(s: Str)
    ensures UpToZero(s) == s
  {
    if |s| > 0 { StrBack(s[1..]); }
  }

  lemma StrAt(buf: seq<Byte>, pos: nat, s: Str)
    requires At(buf, pos, Z(s))
    ensures CStr(buf, pos, Len(s)) == s
  {
    StrBack(s);
    assert buf[pos..pos + |s|] == Z(s)[..|s|];
  }

  // ----- tables of attachments, sent compactly -----

  /** Entry i is i, or -1 when there is no attachment i. */
  type Table = t: seq<int> | |t| == ATTACHMENTS_MAX && forall i :: 0 <= i < |t| ==> t[i] == -1 || t[i] == i
    witness seq(ATTACHMENTS_MAX, i => -1)

  function Empty(): Table { seq(ATTACHMENTS_MAX, i => -1) }

  function Compact(t: Table, n: nat): (r: seq<U32>)
    requires n <= ATTACHMENTS_MAX
    ensures |r| <= n
  {
    if n == 0 then [] else Compact(t, n - 1) + if t[n - 1] < 0 then [] else [t[n - 1]]
  }

  function Entered(t: Table, att: U32): Table {
    if att < ATTACHMENTS_MAX then t[att := att] else t
  }

  function Expand(ws: seq<U32>): Table {
    if |ws| == 0 then Empty()
    else Entered(Expand(ws[..|ws| - 1]), ws[|ws| - 1])
  }

  lemma {:induction false} ExpandCompact(t: Table, n: nat)
    requires n <= ATTACHMENTS_MAX
    ensures forall i :: 0 <= i < ATTACHMENTS_MAX ==> Expand(Compact(t, n))[i] == if i < n then t[i] else -1
  {
    if n > 0 {
      ExpandCompact(t, n - 1);
      var c := Compact(t, n);
      if t[n - 1] >= 0 {
        assert c[..|c| - 1] == Compact(t, n - 1);
      } else {
        assert c == Compact(t, n - 1);
      }
    }
  }

  /** A sparse table survives being sent compactly. */
  lemma TableBack(t: Table)
    ensures Expand(Compact(t, ATTACHMENTS_MAX)) == t
  {
    ExpandCompact(t, ATTACHMENTS_MAX);
  }

  // ----- one record: words, the lengths of its strings, and the strings -----

  function Lens(strs: seq<Str>): (r: seq<U32>)
    ensures |r| == |strs|
  {
    seq(|strs|, i requires 0 <= i < |strs| => Len(strs[i]))
  }

  function AllZ(strs: seq<Str>): seq<Byte> {
    if |strs| == 0 then [] else AllZ(strs[..|strs| - 1]) + Z(strs[|strs| - 1])
  }

  function Rec(ws: seq<U32>, strs: seq<Str>): seq<Byte> {
    Words(ws + Lens(strs)) + AllZ(strs)
  }

  function Total(lens: seq<U32>): nat {
    if |lens| == 0 then 0 else Total(lens[..|lens| - 1]) + lens[|lens| - 1]
  }

  function Strs(buf: seq<Byte>, pos: nat, lens: seq<U32>): (r: seq<Str>)
    ensures |r| == |lens|
  {
    if |lens| == 0 then []
    else Strs(buf, pos, lens[..|lens| - 1]) + [CStr(buf, pos + Total(lens[..|lens| - 1]), lens[|lens| - 1])]
  }

  datatype Raw = Raw(words: seq<U32>, strs: seq<Str>, next: nat)

  /** A record of n words and k strings. */
  function GetRec(buf: seq<Byte>, pos: nat, n: nat, k: nat): (r: Raw)
    ensures |r.words| == n && |r.strs| == k
  {
    var w := Ints(buf, pos, n + k);
    Raw(w[..n], Strs(buf, pos + 4 * (n + k), w[n..]), pos + 4 * (n + k) + Total(w[n..]))
  }

  lemma LensFront(strs: seq<Str>)
    requires |strs| > 0
    ensures Lens(strs)[..|strs| - 1] == Lens(strs[..|strs| - 1]) && Lens(strs)[|strs| - 1] == Len(strs[|strs| - 1])
  {
  }

  lemma {:induction false} StrsAt(buf: seq<Byte>, pos: nat, strs: seq<Str>)
    requires At(buf, pos, AllZ(strs))
    ensures Strs(buf, pos, Lens(strs)) == strs && |AllZ(strs)| == Total(Lens(strs))
  {
    if |strs| > 0 {
      var front, last := strs[..|strs| - 1], strs[|strs| - 1];
      AtBoth(buf, pos, AllZ(front), Z(last));
      StrsAt(buf, pos, front);
      StrAt(buf, pos + |AllZ(front)|, last);
      LensFront(strs);
      assert Strs(buf, pos, Lens(strs)) == front + [last];
      assert strs == front + [last];
    }
  }

  /** A record's words and string lengths. */
  lemma RecInts(buf: seq<Byte>, pos: nat, ws: seq<U32>, strs: seq<Str>)
    requires At(buf, pos, Rec(ws, strs))
    ensures Ints(buf, pos, |ws| + |strs|) == ws + Lens(strs)
    ensures Ints(buf, pos, |ws|) == ws && (|ws| > 0 ==> WordAt(buf, pos) == ws[0])
  {
    var all := ws + Lens(strs);
    AtBoth(buf, pos, Words(all), AllZ(strs));
    WordsAt(buf, pos, all);
    assert all[..|ws|] == ws;
    FewerInts(buf, pos, |ws|, |ws| + |strs|);
  }

  lemma RecStrs(buf: seq<Byte>, pos: nat, ws: seq<U32>, strs: seq<Str>)
    requires At(buf, pos, Rec(ws, strs))
    ensures At(buf, pos + 4 * (|ws| + |strs|), AllZ(strs))
    ensures |Rec(ws, strs)| == 4 * (|ws| + |strs|) + |AllZ(strs)|
  {
    AtBoth(buf, pos, Words(ws + Lens(strs)), AllZ(strs));
  }

  lemma RecBack(buf: seq<Byte>, pos: nat, ws: seq<U32>, strs: seq<Str>)
    requires At(buf, pos, Rec(ws, strs))
    ensures GetRec(buf, pos, |ws|, |strs|) == Raw(ws, strs, pos + |Rec(ws, strs)|)
    ensures Ints(buf, pos, |ws|) == ws && (|ws| > 0 ==> WordAt(buf, pos) == ws[0])
  {
    RecInts(buf, pos, ws, strs);
    RecStrsBack(buf, pos, ws, strs);
    GetRecParts(buf, pos, ws, Lens(strs), strs);
  }

  lemma RecStrsBack(buf: seq<Byte>, pos: nat, ws: seq<U32>, strs: seq<Str>)
    requires At(buf, pos, Rec(ws, strs))
    ensures Strs(buf, pos + 4 * (|ws| + |strs|), Lens(strs)) == strs
    ensures |Rec(ws, strs)| == 4 * (|ws| + |strs|) + Total(Lens(strs))
  {
    RecStrs(buf, pos, ws, strs);
    StrsAt(buf, pos + 4 * (|ws| + |strs|), strs);
  }

  lemma GetRecParts(buf: seq<Byte>, pos: nat, ws: seq<U32>, lens: seq<U32>, strs: seq<Str>)
    requires |lens| == |strs| && Ints(buf, pos, |ws| + |strs|) == ws + lens
    requires Strs(buf, pos + 4 * (|ws| + |strs|), lens) == strs
    ensures GetRec(buf, pos, |ws|, |strs|) == Raw(ws, strs, pos + 4 * (|ws| + |strs|) + Total(lens))
  {
    assert (ws + lens)[..|ws|] == ws && (ws + lens)[|ws|..] == lens;
  }

  lemma FewerInts(buf: seq<Byte>, pos: nat, n: nat, m: nat)
    requires n <= m
    ensures Ints(buf, pos, n) == Ints(buf, pos, m)[..n]
    ensures n > 0 ==> Ints(buf, pos, n)[0] == WordAt(buf, pos)
  {
    if n > 0 { assert Ints(buf, pos, n)[0] == WordAt(buf, pos + 4 * 0); }
  }

  /** Word i of a record. */
  function N(ws: seq<U32>, i: nat): U32 { if i < |ws| then ws[i] else 0 }

  function Str0(strs: seq<Str>, i: nat): Str { if i < |strs| then strs[i] else [] }

  // ----- writers and readers -----

  datatype Codec<!T> = Codec(enc: T -> seq<Byte>, get: (seq<Byte>, nat) -> (T, nat))

  /** Reading undoes writing, and stops where writing stopped. */
  ghost predicate Right<T(!new)>(c: Codec<T>) {
    forall buf: seq<Byte>, pos: nat, x: T {:trigger At(buf, pos, c.enc(x))} ::
      At(buf, pos, c.enc(x)) ==> c.get(buf, pos) == (x, pos + |c.enc(x)|)
  }

  /** How records of one kind are taken apart, how a reader finds out how many words and
      strings it has before it, and how it puts the record together again. */
  datatype Form<!T> = Form(
    words: T -> seq<U32>,
    strs: T -> seq<Str>,
    shape: (seq<Byte>, nat) -> (nat, nat),
    from: (seq<U32>, seq<Str>) -> T)
  {
    function Enc(x: T): seq<Byte> { Rec(words(x), strs(x)) }

    function Get(buf: seq<Byte>, pos: nat): (T, nat) {
      var s := shape(buf, pos);
      var r := GetRec(buf, pos, s.0, s.1);
      (from(r.words, r.strs), r.next)
    }
  }

  function Records<T>(f: Form<T>): Codec<T> {
    Codec(x => f.Enc(x), (buf, pos) => f.Get(buf, pos))
  }

  /** The form loses nothing, and a reader finds the shape of what was written. */
  ghost predicate Lossless<T(!new)>(f: Form<T>) {
    && (forall x: T {:trigger f.words(x)} :: f.from(f.words(x), f.strs(x)) == x)
    && (forall buf: seq<Byte>, pos: nat, x: T {:trigger At(buf, pos, Rec(f.words(x), f.strs(x)))} ::
          At(buf, pos, Rec(f.words(x), f.strs(x))) ==> f.shape(buf, pos) == (|f.words(x)|, |f.strs(x)|))
  }

  lemma LosslessRight<T(!new)>(f: Form<T>)
    requires Lossless(f)
    ensures Right(Records(f))
  {
    forall buf: seq<Byte>, pos: nat, x: T ensures ReadsBack(Records(f), buf, pos, x) {
      if At(buf, pos, Records(f).enc(x)) { RecordBack(f, buf, pos, x); }
    }
    RightFrom(Records(f));
  }

  /** Right at one place of one buffer, for one record. */
  ghost predicate ReadsBack<T>(c: Codec<T>, buf: seq<Byte>, pos: nat, x: T) {
    At(buf, pos, c.enc(x)) ==> c.get(buf, pos) == (x, pos + |c.enc(x)|)
  }

  lemma RightFrom<T(!new)>(c: Codec<T>)
    requires forall buf: seq<Byte>, pos: nat, x: T :: ReadsBack(c, buf, pos, x)
    ensures Right(c)
  {
    forall buf: seq<Byte>, pos: nat, x: T | At(buf, pos, c.enc(x))
      ensures c.get(buf, pos) == (x, pos + |c.enc(x)|)
    {
      assert ReadsBack(c, buf, pos, x);
    }
  }

  lemma RecordBack<T(!new)>(f: Form<T>, buf: seq<Byte>, pos: nat, x: T)
    requires Lossless(f) && At(buf, pos, Records(f).enc(x))
    ensures Records(f).get(buf, pos) == (x, pos + |Records(f).enc(x)|)
  {
    FormBack(f, buf, pos, x);
  }

  lemma FormBack<T(!new)>(f: Form<T>, buf: seq<Byte>, pos: nat, x: T)
    requires Lossless(f) && At(buf, pos, f.Enc(x))
    ensures f.Get(buf, pos) == (x, pos + |f.Enc(x)|)
  {
    RecBack(buf, pos, f.words(x), f.strs(x));
    assert f.from(f.words(x), f.strs(x)) == x;
  }

  // ----- records one after the other -----

  function Cat<T>(c: Codec<T>, items: seq<T>): seq<Byte> {
    if |items| == 0 then [] else Cat(c, items[..|items| - 1]) + c.enc(items[|items| - 1])
  }

  function Many<T>(c: Codec<T>, buf: seq<Byte>, pos: nat, n: nat): (r: (seq<T>, nat))
    ensures |r.0| == n
  {
    if n == 0 then ([], pos)
    else
      var before := Many(c, buf, pos, n - 1);
      var one := c.get(buf, before.1);
      (before.0 + [one.0], one.1)
  }

  lemma {:induction false} ManyBack<T(!new)>(c: Codec<T>, buf: seq<Byte>, pos: nat, items: seq<T>)
    requires Right(c) && At(buf, pos, Cat(c, items))
    ensures Many(c, buf, pos, |items|) == (items, pos + |Cat(c, items)|)
  {
    if |items| > 0 {
      var front, last := items[..|items| - 1], items[|items| - 1];
      AtBoth(buf, pos, Cat(c, front), c.enc(last));
      ManyBack(c, buf, pos, front);
      assert items == front + [last];
    }
  }

  /** A count, and as many records. */
  function EncMany<T>(c: Codec<T>, items: seq<T>): seq<Byte>
    requires |items| < 0x1_0000_0000
  {
    Words([|items|]) + Cat(c, items)
  }

  function GetMany<T>(c: Codec<T>, buf: seq<Byte>, pos: nat): (seq<T>, nat) {
    Many(c, buf, pos + 4, WordAt(buf, pos))
  }

  lemma CountedBack<T(!new)>(c: Codec<T>, buf: seq<Byte>, pos: nat, items: seq<T>)
    requires |items| < 0x1_0000_0000 && Right(c) && At(buf, pos, EncMany(c, items))
    ensures GetMany(c, buf, pos) == (items, pos + |EncMany(c, items)|)
  {
    AtBoth(buf, pos, Words([|items|]), Cat(c, items));
    WordsAt(buf, pos, [|items|]);
    FewerInts(buf, pos, 1, 1);
    ManyBack(c, buf, pos + 4, items);
  }

  // ----- attachments -----

  datatype AttData = AttData(
    num: I32, proc: I32, stat: I32, pid: I32, blocked: I32, quit: I32, owned: I32,
    eventsPut: U64, eventsGet: U64, eventsDump: U64, eventsMake: U64,
    host: Str, station: Str, iface: Str)

  function AttWords(a: AttData): seq<U32> {
    [W(a.num), W(a.proc), W(a.stat), W(a.pid), W(a.blocked), W(a.quit), W(a.owned),
     Hi(a.eventsPut), Lo(a.eventsPut), Hi(a.eventsGet), Lo(a.eventsGet),
     Hi(a.eventsDump), Lo(a.eventsDump), Hi(a.eventsMake), Lo(a.eventsMake)]
  }

  function AttStrs(a: AttData): seq<Str> { [a.host, a.station, a.iface] }

  function AttShape(buf: seq<Byte>, pos: nat): (nat, nat) { (15, 3) }

  function AttFrom(w: seq<U32>, strs: seq<Str>): AttData {
    AttData(S(N(w, 0)), S(N(w, 1)), S(N(w, 2)), S(N(w, 3)), S(N(w, 4)), S(N(w, 5)), S(N(w, 6)),
            Both(N(w, 7), N(w, 8)), Both(N(w, 9), N(w, 10)), Both(N(w, 11), N(w, 12)), Both(N(w, 13), N(w, 14)),
            Str0(strs, 0), Str0(strs, 1), Str0(strs, 2))
  }

  function AttForm(): Form<AttData> { Form(AttWords, AttStrs, AttShape, AttFrom) }

  lemma AttFromWords(a: AttData)
    ensures AttFrom(AttWords(a), AttStrs(a)) == a
  {
  }

  lemma AttLossless()
    ensures Lossless(AttForm())
  {
    forall a: AttData ensures AttFrom(AttWords(a), AttStrs(a)) == a { AttFromWords(a); }
  }

  // ----- processes -----

  datatype ProcData = ProcData(num: I32, heartbeat: I32, pid: I32, att: Table)

  function Atts(t: Table): seq<U32> { Compact(t, ATTACHMENTS_MAX) }

  function ProcWords(p: ProcData): seq<U32> {
    [|Atts(p.att)|, W(p.num), W(p.heartbeat), W(p.pid)] + Atts(p.att)
  }

  function ProcStrs(p: ProcData): seq<Str> { [] }

  function ProcShape(buf: seq<Byte>, pos: nat): (nat, nat) { (4 + WordAt(buf, pos), 0) }

  function ProcFrom(w: seq<U32>, strs: seq<Str>): ProcData {
    ProcData(S(N(w, 1)), S(N(w, 2)), S(N(w, 3)), Expand(if |w| < 4 then [] else w[4..]))
  }

  function ProcForm(): Form<ProcData> { Form(ProcWords, ProcStrs, ProcShape, ProcFrom) }

  lemma ProcFromWords(p: ProcData)
    ensures ProcFrom(ProcWords(p), ProcStrs(p)) == p
  {
    assert ProcWords(p)[4..] == Atts(p.att);
    TableBack(p.att);
  }

  lemma ProcLossless()
    ensures Lossless(ProcForm())
  {
    forall p: ProcData ensures ProcFrom(ProcWords(p), ProcStrs(p)) == p { ProcFromWords(p); }
    forall buf: seq<Byte>, pos: nat, p: ProcData | At(buf, pos, Rec(ProcWords(p), ProcStrs(p)))
      ensures ProcShape(buf, pos) == (|ProcWords(p)|, |ProcStrs(p)|)
    {
      RecBack(buf, pos, ProcWords(p), ProcStrs(p));
    }
  }

  // ----- stations -----

  type Select = s: seq<I32> | |s| == SELECT_INTS witness [0, 0, 0, 0, 0, 0]

  datatype StatData = StatData(
    num: I32, status: I32, mutex: I32, att: Table,
    inMutex: I32, inCnt: I32, inTry: U64, inIn: U64, outMutex: I32, outCnt: I32, outOut: U64,
    flowMode: I32, userMode: I32, restoreMode: I32, blockMode: I32, prescale: I32, cue: I32, selectMode: I32,
    select: Select, fname: Str, lib: Str, classs: Str, name: Str)

  /** The words after the table. */
  function StatRest(s: StatData): (r: seq<U32>)
    ensures |r| == 23
  {
    [W(s.inMutex), W(s.inCnt), Hi(s.inTry), Lo(s.inTry), Hi(s.inIn), Lo(s.inIn), W(s.outMutex), W(s.outCnt),
     Hi(s.outOut), Lo(s.outOut), W(s.flowMode), W(s.userMode), W(s.restoreMode), W(s.blockMode), W(s.prescale),
     W(s.cue), W(s.selectMode),
     W(s.select[0]), W(s.select[1]), W(s.select[2]), W(s.select[3]), W(s.select[4]), W(s.select[5])]
  }

  function StatWords(s: StatData): seq<U32> {
    [|Atts(s.att)|, W(s.num), W(s.status), W(s.mutex)] + (Atts(s.att) + StatRest(s))
  }

  function StatStrs(s: StatData): seq<Str> { [s.fname, s.lib, s.classs, s.name] }

  function StatShape(buf: seq<Byte>, pos: nat): (nat, nat) { (27 + WordAt(buf, pos), 4) }

  /** The record, from the three words before its table, the table, and the others. */
  function StatOf(num: U32, status: U32, mutex: U32, att: Table, w: seq<U32>, strs: seq<Str>): StatData {
    StatData(S(num), S(status), S(mutex), att,
             S(N(w, 0)), S(N(w, 1)), Both(N(w, 2), N(w, 3)), Both(N(w, 4), N(w, 5)), S(N(w, 6)), S(N(w, 7)),
             Both(N(w, 8), N(w, 9)), S(N(w, 10)), S(N(w, 11)), S(N(w, 12)), S(N(w, 13)), S(N(w, 14)), S(N(w, 15)),
             S(N(w, 16)), [S(N(w, 17)), S(N(w, 18)), S(N(w, 19)), S(N(w, 20)), S(N(w, 21)), S(N(w, 22))],
             Str0(strs, 0), Str0(strs, 1), Str0(strs, 2), Str0(strs, 3))
  }

  function StatFrom(w: seq<U32>, strs: seq<Str>): StatData {
    var natts := N(w, 0);
    if |w| < 4 + natts then StatOf(0, 0, 0, Empty(), [], [])
    else StatOf(w[1], w[2], w[3], Expand(w[4..4 + natts]), w[4 + natts..], strs)
  }

  function StatForm(): Form<StatData> { Form(StatWords, StatStrs, StatShape, StatFrom) }

  lemma StatOfWords(s: StatData)
    ensures StatOf(W(s.num), W(s.status), W(s.mutex), s.att, StatRest(s), StatStrs(s)) == s
  {
    var w := StatRest(s);
    assert [S(N(w, 17)), S(N(w, 18)), S(N(w, 19)), S(N(w, 20)), S(N(w, 21)), S(N(w, 22))] == s.select;
  }

  lemma StatFromWords(s: StatData)
    ensures StatFrom(StatWords(s), StatStrs(s)) == s
  {
    var ws, atts := StatWords(s), Atts(s.att);
    assert ws[4..4 + |atts|] == atts && ws[4 + |atts|..] == StatRest(s);
    TableBack(s.att);
    StatOfWords(s);
  }

  lemma StatLossless()
    ensures Lossless(StatForm())
  {
    forall s: StatData ensures StatFrom(StatWords(s), StatStrs(s)) == s { StatFromWords(s); }
    forall buf: seq<Byte>, pos: nat, s: StatData | At(buf, pos, Rec(StatWords(s), StatStrs(s)))
      ensures StatShape(buf, pos) == (|StatWords(s)|, |StatStrs(s)|)
    {
      StatShapeIs(buf, pos, s);
    }
  }

  lemma StatShapeIs(buf: seq<Byte>, pos: nat, s: StatData)
    requires At(buf, pos, Rec(StatWords(s), StatStrs(s)))
    ensures StatShape(buf, pos) == (|StatWords(s)|, |StatStrs(s)|)
  {
    RecBack(buf, pos, StatWords(s), StatStrs(s));
  }

  // ----- the system -----

  type Strings = s: seq<Str> | |s| < 0x1_0000_0000 witness []

  datatype SysData = SysData(
    alive: I32, heartbeat: I32, ntemps: I32, nstations: I32, nattachments: I32, nprocesses: I32, eventsOwned: I32,
    mutex: I32, statMutex: I32, stataddMutex: I32,
    endian: I32, share: I32, mainpid: I32, nselects: I32, nevents: I32, eventSize: U64, bit64: I32,
    ntempsMax: I32, nstationsMax: I32, nattachmentsMax: I32, nprocessesMax: I32,
    tcpPort: I32, udpPort: I32, multiPort: I32,
    ifaddrs: Strings, mcastaddrs: Strings, filename: Str)

  function SysWords(s: SysData): seq<U32> {
    [W(s.alive), W(s.heartbeat), W(s.ntemps), W(s.nstations), W(s.nattachments), W(s.nprocesses), W(s.eventsOwned),
     W(s.mutex), W(s.statMutex), W(s.stataddMutex),
     W(s.endian), W(s.share), W(s.mainpid), W(s.nselects), W(s.nevents), Hi(s.eventSize), Lo(s.eventSize), W(s.bit64),
     W(s.ntempsMax), W(s.nstationsMax), W(s.nattachmentsMax), W(s.nprocessesMax),
     W(s.tcpPort), W(s.udpPort), W(s.multiPort), |s.ifaddrs|, |s.mcastaddrs|]
  }

  function SysStrs(s: SysData): seq<Str> { s.ifaddrs + s.mcastaddrs + [s.filename] }

  function SysShape(buf: seq<Byte>, pos: nat): (nat, nat) {
    SysCounts(Ints(buf, pos, 27))
  }

  function SysCounts(w: seq<U32>): (nat, nat) {
    var ifcount: nat := N(w, 25);
    var mcount: nat := N(w, 26);
    (27, ifcount + mcount + 1)
  }

  function SysOf(w: seq<U32>, ifaddrs: Strings, mcastaddrs: Strings, filename: Str): SysData {
    SysData(S(N(w, 0)), S(N(w, 1)), S(N(w, 2)), S(N(w, 3)), S(N(w, 4)), S(N(w, 5)), S(N(w, 6)), S(N(w, 7)), S(N(w, 8)),
            S(N(w, 9)), S(N(w, 10)), S(N(w, 11)), S(N(w, 12)), S(N(w, 13)), S(N(w, 14)), Both(N(w, 15), N(w, 16)),
            S(N(w, 17)), S(N(w, 18)), S(N(w, 19)), S(N(w, 20)), S(N(w, 21)), S(N(w, 22)), S(N(w, 23)), S(N(w, 24)),
            ifaddrs, mcastaddrs, filename)
  }

  function SysFrom(w: seq<U32>, strs: seq<Str>): SysData {
    var ifcount: nat := N(w, 25);
    var mcount: nat := N(w, 26);
    if |strs| < ifcount + mcount + 1 then SysOf(w, [], [], [])
    else SysOf(w, strs[..ifcount], strs[ifcount..ifcount + mcount], strs[ifcount + mcount])
  }

  function SysForm(): Form<SysData> { Form(SysWords, SysStrs, SysShape, SysFrom) }

  lemma SysOfWords(s: SysData)
    ensures SysOf(SysWords(s), s.ifaddrs, s.mcastaddrs, s.filename) == s
  {
  }

  lemma SysFromWords(s: SysData)
    ensures SysFrom(SysWords(s), SysStrs(s)) == s
  {
    var strs, n, m := SysStrs(s), |s.ifaddrs|, |s.mcastaddrs|;
    assert strs[..n] == s.ifaddrs && strs[n..n + m] == s.mcastaddrs && strs[n + m] == s.filename;
    SysOfWords(s);
  }

  lemma SysShapeFound(buf: seq<Byte>, pos: nat, s: SysData)
    requires At(buf, pos, Rec(SysWords(s), SysStrs(s)))
    ensures SysShape(buf, pos) == (|SysWords(s)|, |SysStrs(s)|)
  {
    SysCountsRight(s);
    RecBack(buf, pos, SysWords(s), SysStrs(s));
  }

  lemma SysCountsRight(s: SysData)
    ensures |SysWords(s)| == 27 && SysCounts(SysWords(s)) == (27, |SysStrs(s)|)
  {
  }

  lemma SysLossless()
    ensures Lossless(SysForm())
  {
    forall s: SysData ensures SysFrom(SysWords(s), SysStrs(s)) == s { SysFromWords(s); }
    forall buf: seq<Byte>, pos: nat, s: SysData | At(buf, pos, Rec(SysWords(s), SysStrs(s)))
      ensures SysShape(buf, pos) == (|SysWords(s)|, |SysStrs(s)|)
    {
      SysShapeFound(buf, pos, s);
    }
  }

  // ----- the whole message -----

  datatype Message = Message(sys: SysData, stats: seq<StatData>, atts: seq<AttData>, procs: seq<ProcData>) {
    predicate Countable() { |stats| < 0x1_0000_0000 && |atts| < 0x1_0000_0000 && |procs| < 0x1_0000_0000 }
  }

  /** The format of a message: its four kinds of records, and their order. */
  datatype Format = Format(sys: Codec<SysData>, stat: Codec<StatData>, att: Codec<AttData>, proc: Codec<ProcData>) {

    function Enc(m: Message): seq<Byte>
      requires m.Countable()
    {
      sys.enc(m.sys) + (EncMany(stat, m.stats) + (EncMany(att, m.atts) + EncMany(proc, m.procs)))
    }

    function Get(buf: seq<Byte>, pos: nat): (Message, nat) {
      var s := sys.get(buf, pos);
      var stats := GetMany(stat, buf, s.1);
      var atts := GetMany(att, buf, stats.1);
      var procs := GetMany(proc, buf, atts.1);
      (Message(s.0, stats.0, atts.0, procs.0), procs.1)
    }
  }

  function EtFormat(): Format {
    Format(Records(SysForm()), Records(StatForm()), Records(AttForm()), Records(ProcForm()))
  }

  ghost predicate Faithful(f: Format) { Right(f.sys) && Right(f.stat) && Right(f.att) && Right(f.proc) }

  /** Each kind of record of an ET message is read back as it was written. */
  lemma EtFaithful()
    ensures Faithful(EtFormat())
  {
    assert Right(Records(SysForm())) by { SysLossless(); LosslessRight(SysForm()); }
    assert Right(Records(StatForm())) by { StatLossless(); LosslessRight(StatForm()); }
    assert Right(Records(AttForm())) by { AttLossless(); LosslessRight(AttForm()); }
    assert Right(Records(ProcForm())) by { ProcLossless(); LosslessRight(ProcForm()); }
  }

  lemma FourAt(buf: seq<Byte>, pos: nat, a: seq<Byte>, b: seq<Byte>, c: seq<Byte>, d: seq<Byte>)
    requires At(buf, pos, a + (b + (c + d)))
    ensures At(buf, pos, a) && At(buf, pos + |a|, b) && At(buf, pos + |a| + |b|, c) && At(buf, pos + |a| + |b| + |c|, d)
  {
    AtBoth(buf, pos, a, b + (c + d));
    AtBoth(buf, pos + |a|, b, c + d);
    AtBoth(buf, pos + |a| + |b|, c, d);
  }

  lemma PartsBack(f: Format, buf: seq<Byte>, pos: nat, m: Message, p1: nat, p2: nat, p3: nat, p4: nat)
    requires f.sys.get(buf, pos) == (m.sys, p1) && GetMany(f.stat, buf, p1) == (m.stats, p2)
    requires GetMany(f.att, buf, p2) == (m.atts, p3) && GetMany(f.proc, buf, p3) == (m.procs, p4)
    ensures f.Get(buf, pos) == (m, p4)
  {
    var r := f.Get(buf, pos);
    assert r.0.sys == m.sys && r.0.stats == m.stats && r.0.atts == m.atts && r.0.procs == m.procs && r.1 == p4;
  }

  /** Reading undoes writing for the whole message, whatever follows it, and stops at
      its last byte. */
  lemma MessageBack(f: Format, buf: seq<Byte>, pos: nat, m: Message)
    requires Faithful(f) && m.Countable() && At(buf, pos, f.Enc(m))
    ensures f.Get(buf, pos) == (m, pos + |f.Enc(m)|)
  {
    var s, t, u, v := f.sys.enc(m.sys), EncMany(f.stat, m.stats), EncMany(f.att, m.atts), EncMany(f.proc, m.procs);
    FourAt(buf, pos, s, t, u, v);
    var p1 := pos + |s|;
    var p2 := p1 + |t|;
    var p3 := p2 + |u|;
    assert f.sys.get(buf, pos) == (m.sys, p1);
    assert GetMany(f.stat, buf, p1) == (m.stats, p2) by { CountedBack(f.stat, buf, p1, m.stats); }
    assert GetMany(f.att, buf, p2) == (m.atts, p3) by { CountedBack(f.att, buf, p2, m.atts); }
    assert GetMany(f.proc, buf, p3) == (m.procs, p3 + |v|) by { CountedBack(f.proc, buf, p3, m.procs); }
    PartsBack(f, buf, pos, m, p1, p2, p3, p3 + |v|);
  }

  /** So no two states of a system look the same to a monitor, even when more follows. */
  lemma MessageUnique(f: Format, m: Message, n: Message, r: seq<Byte>, s: seq<Byte>)
    requires Faithful(f) && m.Countable() && n.Countable() && f.Enc(m) + r == f.Enc(n) + s
    ensures m == n && r == s
  {
    var a, b := f.Enc(m), f.Enc(n);
    var buf := a + r;
    assert buf[0..|a|] == a && buf[0..|b|] == b;
    MessageBack(f, buf, 0, m);
    MessageBack(f, buf, 0, n);
    assert buf[|a|..] == r && (b + s)[|b|..] == s;
  }

  // ----- where everything lies in a message -----

  /** The number that four bytes stand for, the most significant first. */
  function Big(buf: seq<Byte>, p: nat): nat
    requires p + 4 <= |buf|
  {
    var top: int, upper: int, lower: int := buf[p], buf[p + 1], buf[p + 2];
    top * 0x100_0000 + upper * 0x1_0000 + lower * 0x100 + buf[p + 3]
  }

  /** Word k of a record is x, in two's complement. */
  predicate Field(buf: seq<Byte>, k: nat, x: int) { 4 * k + 4 <= |buf| && Big(buf, 4 * k) == x % 0x1_0000_0000 }

  /** Words k and k + 1 are x. */
  predicate LongField(buf: seq<Byte>, k: nat, x: int) {
    4 * k + 8 <= |buf| && Big(buf, 4 * k) * 0x1_0000_0000 + Big(buf, 4 * k + 4) == x
  }

  lemma BytesAreBig(x: U32)
    ensures Big(Bytes4(x), 0) == x
  {
  }

  lemma {:induction false} WordsAreBig(ws: seq<U32>, k: nat)
    requires k < |ws|
    ensures Big(Words(ws), 4 * k) == ws[k]
  {
    if k < |ws| - 1 {
      WordsAreBig(ws[..|ws| - 1], k);
    } else {
      BytesAreBig(ws[k]);
    }
  }

  /** A record's words, and the lengths of its strings with their closing zeros. */
  lemma RecFields(ws: seq<U32>, strs: seq<Str>, k: nat)
    requires k < |ws| + |strs|
    ensures Field(Rec(ws, strs), k, if k < |ws| then ws[k] else |strs[k - |ws|]| + 1)
  {
    WordsAreBig(ws + Lens(strs), k);
  }

  lemma IsWord(ws: seq<U32>, strs: seq<Str>, k: nat, x: I32)
    requires k < |ws| && ws[k] == W(x)
    ensures Field(Rec(ws, strs), k, x)
  {
    RecFields(ws, strs, k);
  }

  lemma IsLong(ws: seq<U32>, strs: seq<Str>, k: nat, x: U64)
    requires k + 1 < |ws| && ws[k] == Hi(x) && ws[k + 1] == Lo(x)
    ensures LongField(Rec(ws, strs), k, x)
  {
    RecFields(ws, strs, k);
    RecFields(ws, strs, k + 1);
  }

  /** Each field of a list is the word of that place. */
  predicate Fields(buf: seq<Byte>, at: nat, xs: seq<int>) { forall i :: 0 <= i < |xs| ==> Field(buf, at + i, xs[i]) }

  lemma AreWords(ws: seq<U32>, strs: seq<Str>, at: nat, xs: seq<I32>)
    requires at + |xs| <= |ws| && forall i :: 0 <= i < |xs| ==> ws[at + i] == W(xs[i])
    ensures Fields(Rec(ws, strs), at, xs)
  {
    forall i | 0 <= i < |xs| ensures Field(Rec(ws, strs), at + i, xs[i]) { IsWord(ws, strs, at + i, xs[i]); }
  }

  /** After the words and lengths come the strings. */
  lemma RecTail(ws: seq<U32>, strs: seq<Str>)
    ensures 4 * (|ws| + |strs|) <= |Rec(ws, strs)| && Rec(ws, strs)[4 * (|ws| + |strs|)..] == AllZ(strs)
  {
  }

  lemma ThreeStrings(a: Str, b: Str, c: Str)
    ensures AllZ([a, b, c]) == a + [0] + b + [0] + c + [0]
  {
    assert [a, b, c][..2] == [a, b] && [a, b][..1] == [a] && [a][..0] == [];
    assert AllZ([a, b]) == AllZ([a]) + Z(b) && AllZ([a]) == AllZ([]) + Z(a);
  }

  lemma FourStrings(a: Str, b: Str, c: Str, d: Str)
    ensures AllZ([a, b, c, d]) == a + [0] + b + [0] + c + [0] + d + [0]
  {
    ThreeStrings(a, b, c);
    assert [a, b, c, d][..3] == [a, b, c];
  }

  lemma SysLayout(s: SysData)
    ensures var buf := SysForm().Enc(s);
      && Fields(buf, 0, [s.alive, s.heartbeat, s.ntemps, s.nstations, s.nattachments, s.nprocesses, s.eventsOwned])
      && Fields(buf, 7, [s.mutex, s.statMutex, s.stataddMutex, s.endian, s.share, s.mainpid, s.nselects, s.nevents])
      && LongField(buf, 15, s.eventSize)
      && Fields(buf, 17, [s.bit64, s.ntempsMax, s.nstationsMax, s.nattachmentsMax, s.nprocessesMax])
      && Fields(buf, 22, [s.tcpPort, s.udpPort, s.multiPort])
      && Field(buf, 25, |s.ifaddrs|) && Field(buf, 26, |s.mcastaddrs|)
      && var k := 4 * (28 + |s.ifaddrs| + |s.mcastaddrs|);
         k <= |buf| && buf[k..] == AllZ(s.ifaddrs + s.mcastaddrs + [s.filename])
  {
    var ws, strs := SysWords(s), SysStrs(s);
    AreWords(ws, strs, 0, [s.alive, s.heartbeat, s.ntemps, s.nstations, s.nattachments, s.nprocesses, s.eventsOwned]);
    AreWords(ws, strs, 7, [s.mutex, s.statMutex, s.stataddMutex, s.endian, s.share, s.mainpid, s.nselects, s.nevents]);
    IsLong(ws, strs, 15, s.eventSize);
    AreWords(ws, strs, 17, [s.bit64, s.ntempsMax, s.nstationsMax, s.nattachmentsMax, s.nprocessesMax]);
    AreWords(ws, strs, 22, [s.tcpPort, s.udpPort, s.multiPort]);
    RecFields(ws, strs, 25);
    RecFields(ws, strs, 26);
    RecTail(ws, strs);
  }

  /** The words after a station's n attachments. */
  lemma RestAt(s: StatData, n: nat)
    requires n == |Atts(s.att)|
    ensures |StatWords(s)| == 27 + n && forall i :: 0 <= i < 23 ==> StatWords(s)[4 + n + i] == StatRest(s)[i]
  {
  }

  lemma RestIsLong(s: StatData, n: nat, k: nat, x: U64)
    requires n == |Atts(s.att)| && k < 22 && StatRest(s)[k] == Hi(x) && StatRest(s)[k + 1] == Lo(x)
    ensures LongField(StatForm().Enc(s), 4 + n + k, x)
  {
    RestAt(s, n);
    IsLong(StatWords(s), StatStrs(s), 4 + n + k, x);
  }

  lemma RestAreWords(s: StatData, n: nat, k: nat, xs: seq<I32>)
    requires n == |Atts(s.att)| && k + |xs| <= 23 && forall i :: 0 <= i < |xs| ==> StatRest(s)[k + i] == W(xs[i])
    ensures Fields(StatForm().Enc(s), 4 + n + k, xs)
  {
    RestAt(s, n);
    AreWords(StatWords(s), StatStrs(s), 4 + n + k, xs);
  }

  lemma StatHead(s: StatData, n: nat)
    requires n == |Atts(s.att)|
    ensures Fields(StatForm().Enc(s), 0, [n, s.num, s.status, s.mutex]) && Fields(StatForm().Enc(s), 4, Atts(s.att))
  {
    AreWords(StatWords(s), StatStrs(s), 0, [n, s.num, s.status, s.mutex]);
    forall i | 0 <= i < n ensures Field(Rec(StatWords(s), StatStrs(s)), 4 + i, Atts(s.att)[i]) {
      RecFields(StatWords(s), StatStrs(s), 4 + i);
    }
  }

  lemma StatQueues(s: StatData, n: nat)
    requires n == |Atts(s.att)|
    ensures var buf := StatForm().Enc(s);
      && Fields(buf, 4 + n, [s.inMutex, s.inCnt]) && LongField(buf, 6 + n, s.inTry) && LongField(buf, 8 + n, s.inIn)
      && Fields(buf, 10 + n, [s.outMutex, s.outCnt]) && LongField(buf, 12 + n, s.outOut)
  {
    RestAreWords(s, n, 0, [s.inMutex, s.inCnt]);
    RestIsLong(s, n, 2, s.inTry);
    RestIsLong(s, n, 4, s.inIn);
    RestAreWords(s, n, 6, [s.outMutex, s.outCnt]);
    RestIsLong(s, n, 8, s.outOut);
  }

  lemma StatConfig(s: StatData, n: nat)
    requires n == |Atts(s.att)|
    ensures var buf := StatForm().Enc(s);
      && Fields(buf, 14 + n, [s.flowMode, s.userMode, s.restoreMode, s.blockMode, s.prescale, s.cue, s.selectMode])
      && Fields(buf, 21 + n, s.select)
  {
    RestAreWords(s, n, 10, [s.flowMode, s.userMode, s.restoreMode, s.blockMode, s.prescale, s.cue, s.selectMode]);
    RestAreWords(s, n, 17, s.select);
  }

  /** A station's record: n attachments, the two lists, the configuration, and the names. */
  lemma StatLayout(s: StatData, n: nat)
    requires n == |Atts(s.att)|
    ensures var buf := StatForm().Enc(s);
      && Fields(buf, 0, [n, s.num, s.status, s.mutex]) && Fields(buf, 4, Atts(s.att))
      && Fields(buf, 4 + n, [s.inMutex, s.inCnt]) && LongField(buf, 6 + n, s.inTry) && LongField(buf, 8 + n, s.inIn)
      && Fields(buf, 10 + n, [s.outMutex, s.outCnt]) && LongField(buf, 12 + n, s.outOut)
      && Fields(buf, 14 + n, [s.flowMode, s.userMode, s.restoreMode, s.blockMode, s.prescale, s.cue, s.selectMode])
      && Fields(buf, 21 + n, s.select)
      && 4 * (31 + n) <= |buf| && buf[4 * (31 + n)..] == s.fname + [0] + s.lib + [0] + s.classs + [0] + s.name + [0]
  {
    StatHead(s, n);
    StatQueues(s, n);
    StatConfig(s, n);
    RestAt(s, n);
    RecTail(StatWords(s), StatStrs(s));
    FourStrings(s.fname, s.lib, s.classs, s.name);
  }

  lemma AttLayout(a: AttData)
    ensures var buf := AttForm().Enc(a);
      && Fields(buf, 0, [a.num, a.proc, a.stat, a.pid, a.blocked, a.quit, a.owned])
      && LongField(buf, 7, a.eventsPut) && LongField(buf, 9, a.eventsGet)
      && LongField(buf, 11, a.eventsDump) && LongField(buf, 13, a.eventsMake)
      && 72 <= |buf| && buf[72..] == a.host + [0] + a.station + [0] + a.iface + [0]
  {
    var ws, strs := AttWords(a), AttStrs(a);
    AreWords(ws, strs, 0, [a.num, a.proc, a.stat, a.pid, a.blocked, a.quit, a.owned]);
    IsLong(ws, strs, 7, a.eventsPut);
    IsLong(ws, strs, 9, a.eventsGet);
    IsLong(ws, strs, 11, a.eventsDump);
    IsLong(ws, strs, 13, a.eventsMake);
    RecTail(ws, strs);
    ThreeStrings(a.host, a.station, a.iface);
  }

  lemma ProcLayout(p: ProcData)
    ensures var buf := ProcForm().Enc(p);
      Fields(buf, 0, [|Atts(p.att)|, p.num, p.heartbeat, p.pid]) && Fields(buf, 4, Atts(p.att))
  {
    var ws, strs := ProcWords(p), ProcStrs(p);
    AreWords(ws, strs, 0, [|Atts(p.att)|, p.num, p.heartbeat, p.pid]);
    forall i | 0 <= i < |Atts(p.att)| ensures Field(Rec(ws, strs), 4 + i, Atts(p.att)[i]) { RecFields(ws, strs, 4 + i); }
  }

  /** The attachments of a table are sent in order. */
  lemma {:induction false} CompactAscends(t: Table, n: nat)
    requires n <= ATTACHMENTS_MAX
    ensures forall i, j :: 0 <= i < j < |Compact(t, n)| ==> Compact(t, n)[i] < Compact(t, n)[j]
    ensures forall i :: 0 <= i < |Compact(t, n)| ==> Compact(t, n)[i] < n
  {
    if n > 0 { CompactAscends(t, n - 1); }
  }

  lemma CountedAt(buf: seq<Byte>, p: nat, n: U32, records: seq<Byte>)
    requires At(buf, p, Words([n]) + records)
    ensures p + 4 + |records| <= |buf| && Big(buf, p) == n && buf[p + 4..p + 4 + |records|] == records
  {
    AtBoth(buf, p, Words([n]), records);
    WordsAreBig([n], 0);
    var b := buf[p..p + 4];
    assert b[0] == buf[p] && b[1] == buf[p + 1] && b[2] == buf[p + 2] && b[3] == buf[p + 3];
  }

  lemma PartsAt(buf: seq<Byte>, a: seq<Byte>, i: U32, r: seq<Byte>, j: U32, s: seq<Byte>, k: U32, t: seq<Byte>,
                p1: nat, p2: nat, p3: nat, p4: nat)
    requires buf == a + (Words([i]) + r + (Words([j]) + s + (Words([k]) + t)))
    requires p1 == |a| && p2 == p1 + 4 + |r| && p3 == p2 + 4 + |s| && p4 == p3 + 4 + |t|
    ensures |buf| == p4 && buf[..p1] == a && Big(buf, p1) == i && buf[p1 + 4..p2] == r
    ensures Big(buf, p2) == j && buf[p2 + 4..p3] == s && Big(buf, p3) == k && buf[p3 + 4..p4] == t
  {
    assert buf[0..|buf|] == buf;
    FourAt(buf, 0, a, Words([i]) + r, Words([j]) + s, Words([k]) + t);
    CountedAt(buf, p1, i, r);
    CountedAt(buf, p2, j, s);
    CountedAt(buf, p3, k, t);
  }

  /** A message is the system's record, and then for stations, attachments and processes
      their number and their records. */
  lemma MessageLayout(f: Format, m: Message, p1: nat, p2: nat, p3: nat, p4: nat)
    requires m.Countable() && p1 == |f.sys.enc(m.sys)| && p2 == p1 + 4 + |Cat(f.stat, m.stats)|
    requires p3 == p2 + 4 + |Cat(f.att, m.atts)| && p4 == p3 + 4 + |Cat(f.proc, m.procs)|
    ensures var buf := f.Enc(m);
      && |buf| == p4 && buf[..p1] == f.sys.enc(m.sys)
      && Big(buf, p1) == |m.stats| && buf[p1 + 4..p2] == Cat(f.stat, m.stats)
      && Big(buf, p2) == |m.atts| && buf[p2 + 4..p3] == Cat(f.att, m.atts)
      && Big(buf, p3) == |m.procs| && buf[p3 + 4..p4] == Cat(f.proc, m.procs)
  {
    PartsAt(f.Enc(m), f.sys.enc(m.sys), |m.stats|, Cat(f.stat, m.stats), |m.atts|, Cat(f.att, m.atts),
            |m.procs|, Cat(f.proc, m.procs), p1, p2, p3, p4);
  }
}
