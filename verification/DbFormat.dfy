/**
 The two byte files of the database (refer_code/apue.2e/db/db.c): the index file is the
 free-list pointer and the 137 chain heads, a newline, and the index records one after
 another; the data file is the data records one after another.  A record sequence
 determines both files, and a file update is a splice.

   index file:   pointer of the free list    6 columns
                 137 chain heads             6 columns each
                 newline
                 for each record:
                   next record's offset      6 columns
                   length of the rest        4 columns
                   key:offset:length newline
   data file:    for each record, its data and a newline
 */
module DbFormat {
  import opened Basics
  import opened Decimal
  import opened Links
  import opened Texts

  const IDXLEN_SZ := 4
  const PTR_SZ := 6
  const PTR_MAX := 999999
  const NHASH := 137
  const IDXLEN_MIN := 6
  const IDXLEN_MAX := 1024
  const DATLEN_MIN := 2
  const DATLEN_MAX := 1024

  /** Pointer slot 0 is the free list, slot 1 + h is the chain of hash value h; slot s is at byte 6 * s. */
  const SLOTS := NHASH + 1

  /** Where the index records start: after the pointer slots and their newline. */
  const RECORDS := SLOTS * PTR_SZ + 1


  /** An index record with its data record; the data's place in the data file follows from the file order. */
  datatype Rec = Rec(next: nat, key: string, data: string) {
    function DatLen(): nat { |data| + 1 }
  }

  // ---------- texts ----------

  predicate NoSeparator(s: string) {
    ':' !in s && '\0' !in s
  }

  function Body(key: string, datoff: nat, datlen: nat): string {
    key + ":" + Digits(datoff) + ":" + Digits(datlen) + "\n"
  }

  /** strchr on the bytes before the first NUL. */
  function StrChr(s: string, c: char): (r: Option<nat>)
    ensures r.Some? ==> r.value < |s| && s[r.value] == c && c !in s[..r.value]
    ensures r.None? && '\0' !in s ==> c !in s
  {
    if s == "" || s[0] == '\0' then None
    else if s[0] == c then Some(0)
    else match StrChr(s[1..], c)
      case None => None
      case Some(i) => Some(i + 1)
  }

  datatype Parsed = Parsed(key: string, datoff: int, datlen: int)

  /** The separator search of _db_readidx; None is one of its err_dump exits. */
  function ParseBody(buf: string): Option<Parsed> {
    if buf == "" || buf[|buf| - 1] != '\n' then None else
    var s := buf[..|buf| - 1];
    match StrChr(s, ':')
    case None => None
    case Some(i) =>
      var t := s[i + 1..];
      match StrChr(t, ':')
      case None => None
      case Some(j) =>
        var u := t[j + 1..];
        if StrChr(u, ':').Some? then None else
        var p := Parsed(s[..i], Atol(t[..j]), Atol(u));
        if p.datoff < 0 || p.datlen <= 0 || p.datlen > DATLEN_MAX then None else Some(p)
  }

  lemma {:induction false} StrChrFirst(a: string, c: char, b: string)
    requires c !in a && '\0' !in a && c != '\0'
    ensures StrChr(a + [c] + b, c) == Some(|a|)
  {
    var s := a + [c] + b;
    if a == "" {
      assert s[0] == c;
    } else {
      assert s[0] == a[0] && a[0] in a;
      assert s[1..] == a[1..] + [c] + b;
      StrChrFirst(a[1..], c, b);
    }
  }

  lemma {:induction false} StrChrAbsent(s: string, c: char)
    requires c !in s
    ensures StrChr(s, c) == None
  {
  }

  lemma DigitsPlain(n: nat)
    ensures ':' !in Digits(n) && '\0' !in Digits(n)
  {
    assert AllDigits(Digits(n));
  }

  lemma Regroup(a: string, b: string, c: string)
    ensures a + ":" + b + ":" + c == a + [':'] + (b + ":" + c)
  {
  }

  lemma ParseParts(key: string, d: string, l: string)
    requires NoSeparator(key) && NoSeparator(d) && NoSeparator(l)
    ensures StrChr(key + ":" + d + ":" + l, ':') == Some(|key|)
    ensures StrChr(d + ":" + l, ':') == Some(|d|) && StrChr(l, ':') == None
  {
    Regroup(key, d, l);
    StrChrFirst(key, ':', d + ":" + l);
    StrChrFirst(d, ':', l);
    StrChrAbsent(l, ':');
  }

  /** Parsing an index record's text gives back the key, data offset and data length it was printed from. */
  lemma ParseBodyRoundTrip(key: string, datoff: nat, datlen: nat)
    requires NoSeparator(key)
    requires 0 < datlen <= DATLEN_MAX
    ensures ParseBody(Body(key, datoff, datlen)) == Some(Parsed(key, datoff, datlen))
  {
    hide Digits, Atol, StrChr, NoSeparator;
    var (d, l) := (Digits(datoff), Digits(datlen));
    DigitsPlain(datoff);
    DigitsPlain(datlen);
    DigitsRoundTrip(datoff);
    DigitsRoundTrip(datlen);
    ParseParts(key, d, l);
    BodyParts(key, d, l);
  }

  lemma BodyParts(key: string, d: string, l: string)
    ensures var b := key + ":" + d + ":" + l + "\n";
            b[|b| - 1] == '\n' && b[..|b| - 1] == key + ":" + d + ":" + l
    ensures (key + ":" + d + ":" + l)[..|key|] == key
    ensures (key + ":" + d + ":" + l)[|key| + 1..] == d + ":" + l
    ensures (d + ":" + l)[..|d|] == d && (d + ":" + l)[|d| + 1..] == l
  {
  }

  lemma {:induction false} StrChrSome(s: string, p: nat, c: char)
    requires p < |s| && s[p] == c && '\0' !in s
    ensures StrChr(s, c).Some? && StrChr(s, c).value <= p
  {
    assert s[0] in s;
    if s[0] != c {
      assert s[1..][p - 1] == c;
      StrChrSome(s[1..], p - 1, c);
    }
  }

  /** With three separators the search ends in an err_dump. */
  lemma TooMany(s: string, a: nat, b: nat, c: nat)
    requires a < b < c < |s| && s[a] == s[b] == s[c] == ':' && '\0' !in s
    ensures ParseBody(s + "\n") == None
  {
    var buf := s + "\n";
    assert buf[..|buf| - 1] == s;
    StrChrSome(s, a, ':');
    var i := StrChr(s, ':').value;
    var t := s[i + 1..];
    assert t[b - i - 1] == ':' && t[c - i - 1] == ':';
    StrChrSome(t, b - i - 1, ':');
    var j := StrChr(t, ':').value;
    assert t[j + 1..][c - i - 1 - j - 1] == ':';
    StrChrSome(t[j + 1..], c - i - 1 - j - 1, ':');
  }

  /** A key's record is read back as written exactly when the key has no colon; otherwise the reader dies on it. */
  lemma ColonBreaksRecord(key: string, datoff: nat, datlen: nat)
    requires '\0' !in key && 0 < datlen <= DATLEN_MAX
    ensures ParseBody(Body(key, datoff, datlen)) == Some(Parsed(key, datoff, datlen)) <==> ':' !in key
    ensures ':' in key ==> ParseBody(Body(key, datoff, datlen)) == None
  {
    if ':' !in key {
      ParseBodyRoundTrip(key, datoff, datlen);
    } else {
      hide ParseBody, Digits;
      var (d, l) := (Digits(datoff), Digits(datlen));
      var s := key + ":" + d + ":" + l;
      DigitsPlain(datoff);
      DigitsPlain(datlen);
      var a :| 0 <= a < |key| && key[a] == ':';
      assert s[a] == key[a] && s[|key|] == ':' && s[|key| + 1 + |d|] == ':';
      TooMany(s, a, |key|, |key| + 1 + |d|);
    }
  }

  /** Two bodies over the same sizes are equally long, so a record can be rewritten in place. */
  lemma BodySize(k1: string, k2: string, datoff: nat, datlen: nat)
    requires |k1| == |k2|
    ensures |Body(k1, datoff, datlen)| == |Body(k2, datoff, datlen)|
  {
  }

  lemma PtrFieldSize(p: nat)
    requires p <= PTR_MAX
    ensures |Field(PTR_SZ, p)| == PTR_SZ
  {
    DigitsFit(p, PTR_SZ);
    assert Pow10(6) == 10 * Pow10(5) && Pow10(4) == 10 * Pow10(3);
  }

  lemma LenFieldSize(n: nat)
    requires n <= IDXLEN_MAX
    ensures |Field(IDXLEN_SZ, n)| == IDXLEN_SZ
  {
    DigitsFit(n, IDXLEN_SZ);
    assert Pow10(4) == 10 * Pow10(3) && Pow10(2) == 10 * Pow10(1);
  }

  // ---------- the data file ----------

  function DatText(r: Rec): string {
    r.data + "\n"
  }

  function DatTexts(recs: seq<Rec>): (ts: seq<string>)
    ensures |ts| == |recs|
  {
    seq(|recs|, i requires 0 <= i < |recs| => DatText(recs[i]))
  }

  function DatImage(recs: seq<Rec>): string {
    Cat(DatTexts(recs))
  }

  /** Offset of record i's data. */
  function DatOff(recs: seq<Rec>, i: nat): nat
    requires i <= |recs|
  {
    At(DatTexts(recs), i)
  }

  /** Rewriting a record's data at its own length is an in-place overwrite at its data offset. */
  lemma DatUpdate(recs: seq<Rec>, i: nat, r: Rec)
    requires i < |recs| && |r.data| == |recs[i].data|
    ensures DatOff(recs, i) + |DatText(r)| <= |DatImage(recs)|
    ensures DatImage(recs)[DatOff(recs, i)..DatOff(recs, i) + recs[i].DatLen()] == DatText(recs[i])
    ensures DatImage(recs[i := r]) == Splice(DatImage(recs), DatOff(recs, i), DatText(r))
  {
    assert DatTexts(recs[i := r]) == DatTexts(recs)[i := DatText(r)];
    CatUpdate(DatTexts(recs), i, DatText(r));
    CatAt(DatTexts(recs), i);
  }

  /** The records' data lie one after the other and fill the data file. */
  lemma ExtentsTile(recs: seq<Rec>, i: nat)
    requires i < |recs|
    ensures DatOff(recs, 0) == 0 && DatOff(recs, |recs|) == |DatImage(recs)|
    ensures DatOff(recs, i + 1) == DatOff(recs, i) + recs[i].DatLen() <= |DatImage(recs)|
    ensures DatImage(recs)[DatOff(recs, i)..DatOff(recs, i + 1)] == recs[i].data + "\n"
  {
    var ts := DatTexts(recs);
    CatSize(ts);
    CatAt(ts, i);
  }

  lemma DatOffFrame(recs: seq<Rec>, i: nat, r: Rec, j: nat)
    requires i < |recs| && |r.data| == |recs[i].data| && j <= |recs|
    ensures DatOff(recs[i := r], j) == DatOff(recs, j)
  {
    AtSameLengths(DatTexts(recs[i := r]), DatTexts(recs), j);
  }

  // ---------- the index records ----------

  /** A record within the limits of apue_db.h, whose data lies at datoff. */
  ghost predicate RecOk(r: Rec, datoff: nat) {
    && NoSeparator(r.key)
    && r.next <= PTR_MAX
    && DATLEN_MIN <= r.DatLen() <= DATLEN_MAX
    && IDXLEN_MIN <= |Body(r.key, datoff, r.DatLen())| <= IDXLEN_MAX
  }

  ghost predicate RecsOk(recs: seq<Rec>) {
    forall i :: 0 <= i < |recs| ==> RecOk(recs[i], DatOff(recs, i))
  }

  /** A record's bytes after its pointer field. */
  function RestOf(r: Rec, datoff: nat): string {
    LengthAndBody(Body(r.key, datoff, r.DatLen()))
  }

  function LengthAndBody(body: string): string {
    Field(IDXLEN_SZ, |body|) + body
  }

  function TextOf(r: Rec, datoff: nat): string {
    Field(PTR_SZ, r.next) + RestOf(r, datoff)
  }

  function RecTexts(recs: seq<Rec>): (ts: seq<string>)
    ensures |ts| == |recs|
  {
    seq(|recs|, i requires 0 <= i < |recs| => TextOf(recs[i], DatOff(recs, i)))
  }

  function RecImage(recs: seq<Rec>): string {
    Cat(RecTexts(recs))
  }

  /** Offset of record i in the index file. */
  function Offset(recs: seq<Rec>, i: nat): nat
    requires i <= |recs|
  {
    RECORDS + At(RecTexts(recs), i)
  }

  lemma RecTextAt(recs: seq<Rec>, i: nat)
    requires i < |recs|
    ensures RecTexts(recs)[i] == TextOf(recs[i], DatOff(recs, i))
  {
  }

  lemma TextSize(r: Rec, datoff: nat)
    requires RecOk(r, datoff)
    ensures |Field(PTR_SZ, r.next)| == PTR_SZ
    ensures |TextOf(r, datoff)| == PTR_SZ + IDXLEN_SZ + |Body(r.key, datoff, r.DatLen())|
  {
    PtrFieldSize(r.next);
    LenFieldSize(|Body(r.key, datoff, r.DatLen())|);
  }

  /** A record that can be written over r without changing a length. */
  ghost predicate Fits(r: Rec, r': Rec) {
    |r.key| == |r'.key| && |r.data| == |r'.data| && r'.next <= PTR_MAX && NoSeparator(r'.key)
  }

  lemma FitsSize(r: Rec, r': Rec, datoff: nat)
    requires RecOk(r, datoff) && Fits(r, r')
    ensures RecOk(r', datoff) && |TextOf(r', datoff)| == |TextOf(r, datoff)|
  {
    BodySize(r.key, r'.key, datoff, r.DatLen());
    TextSize(r, datoff);
    TextSize(r', datoff);
  }

  /** Overwriting one record at its old sizes changes that record's text only, and moves nothing. */
  lemma UpdateKeepsLayout(recs: seq<Rec>, i: nat, r: Rec)
    requires RecsOk(recs) && i < |recs| && Fits(recs[i], r)
    ensures RecsOk(recs[i := r])
    ensures forall j :: 0 <= j <= |recs| ==> DatOff(recs[i := r], j) == DatOff(recs, j)
    ensures RecTexts(recs[i := r]) == RecTexts(recs)[i := TextOf(r, DatOff(recs, i))]
    ensures |TextOf(r, DatOff(recs, i))| == |TextOf(recs[i], DatOff(recs, i))|
    ensures forall j :: 0 <= j <= |recs| ==> Offset(recs[i := r], j) == Offset(recs, j)
  {
    FitsSize(recs[i], r, DatOff(recs, i));
    forall j | 0 <= j <= |recs|
      ensures DatOff(recs[i := r], j) == DatOff(recs, j)
    {
      DatOffFrame(recs, i, r, j);
    }
    var ts := RecTexts(recs[i := r]);
    assert ts == RecTexts(recs)[i := TextOf(r, DatOff(recs, i))];
    forall j | 0 <= j <= |recs|
      ensures Offset(recs[i := r], j) == Offset(recs, j)
    {
      AtSameLengths(ts, RecTexts(recs), j);
    }
  }

  // ---------- the whole index file ----------

  function PtrTexts(ptrs: seq<nat>): (ts: seq<string>)
    ensures |ts| == |ptrs|
  {
    seq(|ptrs|, s requires 0 <= s < |ptrs| => Field(PTR_SZ, ptrs[s]))
  }

  ghost predicate PtrsOk(ptrs: seq<nat>) {
    |ptrs| == SLOTS && forall s :: 0 <= s < |ptrs| ==> ptrs[s] <= PTR_MAX
  }

  function Header(ptrs: seq<nat>): string {
    Cat(PtrTexts(ptrs)) + "\n"
  }

  function IdxImage(ptrs: seq<nat>, recs: seq<Rec>): string {
    Header(ptrs) + RecImage(recs)
  }

  ghost predicate LayoutOk(ptrs: seq<nat>, recs: seq<Rec>) {
    PtrsOk(ptrs) && RecsOk(recs)
  }

  lemma {:induction false} SlotAt(ptrs: seq<nat>, s: nat)
    requires PtrsOk(ptrs) && s <= |ptrs|
    ensures At(PtrTexts(ptrs), s) == PTR_SZ * s
  {
    hide Field;
    if s > 0 {
      SlotAt(ptrs, s - 1);
      PtrFieldSize(ptrs[s - 1]);
    }
  }

  lemma HeaderSize(ptrs: seq<nat>)
    requires PtrsOk(ptrs)
    ensures |Header(ptrs)| == RECORDS
  {
    CatSize(PtrTexts(ptrs));
    SlotAt(ptrs, |ptrs|);
  }

  ghost predicate SiteOk(recs: seq<Rec>, l: Place) {
    match l
    case Head(s) => s < SLOTS
    case Next(i) => i < |recs|
  }

  ghost function SiteOffset(recs: seq<Rec>, l: Place): nat
    requires SiteOk(recs, l)
  {
    match l
    case Head(s) => PTR_SZ * s
    case Next(i) => Offset(recs, i)
  }

  ghost function SiteValue(ptrs: seq<nat>, recs: seq<Rec>, l: Place): nat
    requires |ptrs| == SLOTS && SiteOk(recs, l)
  {
    match l
    case Head(s) => ptrs[s]
    case Next(i) => recs[i].next
  }

  ghost function SetPtrs(ptrs: seq<nat>, l: Place, v: nat): seq<nat>
    requires |ptrs| == SLOTS && (l.Head? ==> l.s < SLOTS)
  {
    if l.Head? then ptrs[l.s := v] else ptrs
  }

  ghost function SetRecs(recs: seq<Rec>, l: Place, v: nat): seq<Rec>
    requires SiteOk(recs, l)
  {
    if l.Next? then recs[l.i := recs[l.i].(next := v)] else recs
  }

  lemma IdxSize(ptrs: seq<nat>, recs: seq<Rec>)
    requires LayoutOk(ptrs, recs)
    ensures |IdxImage(ptrs, recs)| == Offset(recs, |recs|)
  {
    HeaderSize(ptrs);
    CatSize(RecTexts(recs));
  }

  lemma SlotBytes(ptrs: seq<nat>, recs: seq<Rec>, s: nat)
    requires LayoutOk(ptrs, recs) && s < SLOTS
    ensures PTR_SZ * s + PTR_SZ <= |IdxImage(ptrs, recs)|
    ensures IdxImage(ptrs, recs)[PTR_SZ * s..PTR_SZ * s + PTR_SZ] == Field(PTR_SZ, ptrs[s])
  {
    SlotAt(ptrs, s);
    PtrFieldSize(ptrs[s]);
    CatAt(PtrTexts(ptrs), s);
    SliceBefore(Cat(PtrTexts(ptrs)), "\n", PTR_SZ * s, PTR_SZ * s + PTR_SZ);
    SliceBefore(Header(ptrs), RecImage(recs), PTR_SZ * s, PTR_SZ * s + PTR_SZ);
  }

  lemma NextBytes(ptrs: seq<nat>, recs: seq<Rec>, i: nat)
    requires LayoutOk(ptrs, recs) && i < |recs|
    ensures Offset(recs, i) + PTR_SZ <= |IdxImage(ptrs, recs)|
    ensures IdxImage(ptrs, recs)[Offset(recs, i)..Offset(recs, i) + PTR_SZ] == Field(PTR_SZ, recs[i].next)
  {
    var (p, o) := (Field(PTR_SZ, recs[i].next), At(RecTexts(recs), i));
    HeaderSize(ptrs);
    PtrFieldSize(recs[i].next);
    CatUpdateFront(RecTexts(recs), i, p, p, RestOf(recs[i], DatOff(recs, i)));
    SliceAfter(Header(ptrs), RecImage(recs), o, o + PTR_SZ);
  }

  /** Six bytes read at a pointer's place are that pointer's field. */
  lemma PtrBytes(ptrs: seq<nat>, recs: seq<Rec>, l: Place)
    requires LayoutOk(ptrs, recs) && SiteOk(recs, l)
    ensures SiteOffset(recs, l) + PTR_SZ <= |IdxImage(ptrs, recs)|
    ensures IdxImage(ptrs, recs)[SiteOffset(recs, l)..SiteOffset(recs, l) + PTR_SZ]
            == Field(PTR_SZ, SiteValue(ptrs, recs, l))
  {
    hide IdxImage, Field, Offset, LayoutOk;
    match l
    case Head(s) => SlotBytes(ptrs, recs, s);
    case Next(i) => NextBytes(ptrs, recs, i);
  }

  /** Reading a pointer's place gives the pointer. */
  lemma PtrReadBack(ptrs: seq<nat>, recs: seq<Rec>, l: Place)
    requires LayoutOk(ptrs, recs) && SiteOk(recs, l)
    ensures SiteOffset(recs, l) + PTR_SZ <= |IdxImage(ptrs, recs)|
    ensures Atol(IdxImage(ptrs, recs)[SiteOffset(recs, l)..SiteOffset(recs, l) + PTR_SZ]) == SiteValue(ptrs, recs, l)
  {
    hide IdxImage, Field, Offset, RecsOk, Atol, SiteOffset, SiteValue;
    PtrBytes(ptrs, recs, l);
    FieldRoundTrip(PTR_SZ, SiteValue(ptrs, recs, l));
  }

  lemma SlotWrite(ptrs: seq<nat>, recs: seq<Rec>, s: nat, v: nat)
    requires LayoutOk(ptrs, recs) && s < SLOTS && v <= PTR_MAX
    ensures |Field(PTR_SZ, v)| == PTR_SZ && PTR_SZ * s + PTR_SZ <= |IdxImage(ptrs, recs)|
    ensures IdxImage(ptrs[s := v], recs) == Splice(IdxImage(ptrs, recs), PTR_SZ * s, Field(PTR_SZ, v))
  {
    var f := Field(PTR_SZ, v);
    PtrFieldSize(v);
    PtrFieldSize(ptrs[s]);
    SlotAt(ptrs, s);
    assert PtrTexts(ptrs[s := v]) == PtrTexts(ptrs)[s := f];
    CatUpdate(PtrTexts(ptrs), s, f);
    var c := Cat(PtrTexts(ptrs));
    SpliceBefore(c, "\n", PTR_SZ * s, f);
    SpliceBefore(c + "\n", RecImage(recs), PTR_SZ * s, f);
  }

  lemma FrontWrite(h: string, ts: seq<string>, i: nat, p: string, p': string, rest: string)
    requires i < |ts| && ts[i] == p + rest && |p'| == |p|
    ensures |h| + At(ts, i) + |p'| <= |h + Cat(ts)|
    ensures h + Cat(ts[i := p' + rest]) == Splice(h + Cat(ts), |h| + At(ts, i), p')
  {
    CatUpdateFront(ts, i, p, p', rest);
    SpliceAfter(h, Cat(ts), At(ts, i), p');
  }

  lemma SameRest(r: Rec, v: nat, datoff: nat)
    ensures RestOf(r.(next := v), datoff) == RestOf(r, datoff)
  {
  }

  lemma NextWrite(ptrs: seq<nat>, recs: seq<Rec>, i: nat, v: nat)
    requires LayoutOk(ptrs, recs) && i < |recs| && v <= PTR_MAX
    ensures |Field(PTR_SZ, v)| == PTR_SZ && Offset(recs, i) + PTR_SZ <= |IdxImage(ptrs, recs)|
    ensures IdxImage(ptrs, recs[i := recs[i].(next := v)]) ==
            Splice(IdxImage(ptrs, recs), Offset(recs, i), Field(PTR_SZ, v))
  {
    hide Field, RestOf, Header, DatOff, Splice, RecTexts, Cat, At, NoSeparator, Body;
    var ts := RecTexts(recs);
    var rest := RestOf(recs[i], DatOff(recs, i));
    assert RecOk(recs[i], DatOff(recs, i));
    UpdateKeepsLayout(recs, i, recs[i].(next := v));
    PtrFieldSize(v);
    PtrFieldSize(recs[i].next);
    HeaderSize(ptrs);
    RecTextAt(recs, i);
    SameRest(recs[i], v, DatOff(recs, i));
    FrontWrite(Header(ptrs), ts, i, Field(PTR_SZ, recs[i].next), Field(PTR_SZ, v), rest);
  }

  /** Writing six bytes at a pointer's place changes that pointer and nothing else. */
  lemma PtrWrite(ptrs: seq<nat>, recs: seq<Rec>, l: Place, v: nat)
    requires LayoutOk(ptrs, recs) && SiteOk(recs, l) && v <= PTR_MAX
    ensures |Field(PTR_SZ, v)| == PTR_SZ && SiteOffset(recs, l) + PTR_SZ <= |IdxImage(ptrs, recs)|
    ensures LayoutOk(SetPtrs(ptrs, l, v), SetRecs(recs, l, v))
    ensures IdxImage(SetPtrs(ptrs, l, v), SetRecs(recs, l, v))
            == Splice(IdxImage(ptrs, recs), SiteOffset(recs, l), Field(PTR_SZ, v))
  {
    match l
    case Head(s) => SlotWrite(ptrs, recs, s, v);
    case Next(i) =>
      NextWrite(ptrs, recs, i, v);
      UpdateKeepsLayout(recs, i, recs[i].(next := v));
  }

  /** Rewriting a whole record at its old sizes is an overwrite of the index file at the record's offset. */
  lemma RecWrite(ptrs: seq<nat>, recs: seq<Rec>, i: nat, r: Rec)
    requires LayoutOk(ptrs, recs) && i < |recs| && Fits(recs[i], r)
    ensures LayoutOk(ptrs, recs[i := r])
    ensures Offset(recs, i) + |TextOf(r, DatOff(recs, i))| <= |IdxImage(ptrs, recs)|
    ensures IdxImage(ptrs, recs[i := r]) == Splice(IdxImage(ptrs, recs), Offset(recs, i), TextOf(r, DatOff(recs, i)))
  {
    HeaderSize(ptrs);
    UpdateKeepsLayout(recs, i, r);
    CatUpdate(RecTexts(recs), i, TextOf(r, DatOff(recs, i)));
    SpliceAfter(Header(ptrs), RecImage(recs), At(RecTexts(recs), i), TextOf(r, DatOff(recs, i)));
  }

  lemma ThreeParts(s: string, off: nat, a: string, b: string, c: string)
    requires off + |a + (b + c)| <= |s| && s[off..off + |a + (b + c)|] == a + (b + c)
    ensures s[off + |a|..off + |a| + |b|] == b
    ensures s[off + |a| + |b|..off + |a| + |b| + |c|] == c
  {
    var t := s[off..off + |a + (b + c)|];
    assert t[|a|..|a| + |b|] == b && t[|a| + |b|..|a| + |b| + |c|] == c;
    SliceOfSlice(s, off, off + |a + (b + c)|, |a|, |a| + |b|);
    SliceOfSlice(s, off, off + |a + (b + c)|, |a| + |b|, |a| + |b| + |c|);
  }

  lemma TextParts(s: string, off: nat, p: string, body: string)
    requires |p| == PTR_SZ && IDXLEN_MIN <= |body| <= IDXLEN_MAX
    requires off + |p + LengthAndBody(body)| <= |s|
    requires s[off..off + |p + LengthAndBody(body)|] == p + LengthAndBody(body)
    ensures |p + LengthAndBody(body)| == PTR_SZ + IDXLEN_SZ + |body|
    ensures Atol(s[off + PTR_SZ..off + PTR_SZ + IDXLEN_SZ]) == |body|
    ensures s[off + PTR_SZ + IDXLEN_SZ..off + PTR_SZ + IDXLEN_SZ + |body|] == body
  {
    var f := Field(IDXLEN_SZ, |body|);
    LenFieldSize(|body|);
    FieldRoundTrip(IDXLEN_SZ, |body|);
    ThreeParts(s, off, p, f, body);
  }

  /** Reading at a record's offset finds its pointer field, its length field and its body. */
  lemma RecReadBack(ptrs: seq<nat>, recs: seq<Rec>, i: nat, idx: string, off: nat, body: string)
    requires LayoutOk(ptrs, recs) && i < |recs|
    requires idx == IdxImage(ptrs, recs) && off == Offset(recs, i)
    requires body == Body(recs[i].key, DatOff(recs, i), recs[i].DatLen())
    ensures Offset(recs, i + 1) == off + PTR_SZ + IDXLEN_SZ + |body| <= |idx|
    ensures Atol(idx[off..off + PTR_SZ]) == recs[i].next
    ensures Atol(idx[off + PTR_SZ..off + PTR_SZ + IDXLEN_SZ]) == |body|
    ensures idx[off + PTR_SZ + IDXLEN_SZ..off + PTR_SZ + IDXLEN_SZ + |body|] == body
    ensures ParseBody(body) == Some(Parsed(recs[i].key, DatOff(recs, i), recs[i].DatLen()))
  {
    hide Body, ParseBody, Field, IdxImage, LengthAndBody, DatOff, Offset;
    RecBytes(ptrs, recs, i);
    TextParts(idx, off, Field(PTR_SZ, recs[i].next), body);
    PtrReadBack(ptrs, recs, Next(i));
    ParseBodyRoundTrip(recs[i].key, DatOff(recs, i), recs[i].DatLen());
  }

  /** The same, as the one-pass read of _db_readidx finds it. */
  lemma ReadRec(ptrs: seq<nat>, recs: seq<Rec>, i: nat, off: nat, len: nat)
    requires LayoutOk(ptrs, recs) && i < |recs| && off == Offset(recs, i)
    requires len == |Body(recs[i].key, DatOff(recs, i), recs[i].DatLen())|
    ensures IDXLEN_MIN <= len <= IDXLEN_MAX
    ensures Offset(recs, i + 1) == off + PTR_SZ + IDXLEN_SZ + len <= |IdxImage(ptrs, recs)|
    ensures Atol(IdxImage(ptrs, recs)[off..off + PTR_SZ]) == recs[i].next
    ensures Atol(IdxImage(ptrs, recs)[off + PTR_SZ..off + PTR_SZ + IDXLEN_SZ]) == len
    ensures ParseBody(IdxImage(ptrs, recs)[off + PTR_SZ + IDXLEN_SZ..off + PTR_SZ + IDXLEN_SZ + len])
            == Some(Parsed(recs[i].key, DatOff(recs, i), recs[i].DatLen()))
  {
    hide Body, ParseBody, IdxImage, Offset, DatOff, Atol, NoSeparator;
    var body := Body(recs[i].key, DatOff(recs, i), recs[i].DatLen());
    assert RecOk(recs[i], DatOff(recs, i));
    RecReadBack(ptrs, recs, i, IdxImage(ptrs, recs), off, body);
  }

  lemma RecBytes(ptrs: seq<nat>, recs: seq<Rec>, i: nat)
    requires LayoutOk(ptrs, recs) && i < |recs|
    ensures |Field(PTR_SZ, recs[i].next)| == PTR_SZ
    ensures Offset(recs, i) + |TextOf(recs[i], DatOff(recs, i))| == Offset(recs, i + 1) <= |IdxImage(ptrs, recs)|
    ensures IdxImage(ptrs, recs)[Offset(recs, i)..Offset(recs, i + 1)] == TextOf(recs[i], DatOff(recs, i))
  {
    hide Field, TextOf, DatOff, Header, Cat, RecTexts, RecOk;
    var ts := RecTexts(recs);
    RecTextAt(recs, i);
    HeaderSize(ptrs);
    TextSize(recs[i], DatOff(recs, i));
    CatAt(ts, i);
    SliceAfter(Header(ptrs), Cat(ts), At(ts, i), At(ts, i) + |ts[i]|);
  }

  lemma AppendDat(recs: seq<Rec>, r: Rec)
    ensures DatImage(recs + [r]) == DatImage(recs) + DatText(r)
    ensures |DatImage(recs)| == DatOff(recs, |recs|)
    ensures forall j :: 0 <= j <= |recs| ==> DatOff(recs + [r], j) == DatOff(recs, j)
  {
    assert DatTexts(recs + [r]) == DatTexts(recs) + [DatText(r)];
    CatAppend(DatTexts(recs), DatText(r));
    CatSize(DatTexts(recs));
  }

  lemma AppendTexts(recs: seq<Rec>, r: Rec)
    ensures RecTexts(recs + [r]) == RecTexts(recs) + [TextOf(r, |DatImage(recs)|)]
  {
    hide TextOf, DatImage;
    AppendDat(recs, r);
  }

  /** Appending a data record and then its index record extends both images by one record. */
  lemma AppendRec(ptrs: seq<nat>, recs: seq<Rec>, r: Rec)
    requires LayoutOk(ptrs, recs) && RecOk(r, |DatImage(recs)|)
    ensures LayoutOk(ptrs, recs + [r])
    ensures DatImage(recs + [r]) == DatImage(recs) + DatText(r)
    ensures IdxImage(ptrs, recs + [r]) == IdxImage(ptrs, recs) + TextOf(r, |DatImage(recs)|)
    ensures forall j :: 0 <= j <= |recs| ==> Offset(recs + [r], j) == Offset(recs, j)
    ensures forall j :: 0 <= j <= |recs| ==> DatOff(recs + [r], j) == DatOff(recs, j)
  {
    AppendDat(recs, r);
    AppendTexts(recs, r);
    CatAppend(RecTexts(recs), TextOf(r, |DatImage(recs)|));
    Associate(Header(ptrs), RecImage(recs), TextOf(r, |DatImage(recs)|));
  }

  lemma Associate(a: string, b: string, c: string)
    ensures a + (b + c) == a + b + c
  {
  }
}
