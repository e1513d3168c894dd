/**
 The state of the database between and during operations: the pointers and records of
 the two files together with the lists they spell, and the map of live keys to data.
 Each physical write of db.c is a small change of this state; the operations are
 compositions of them.

   Shaped      the tables have the right sizes, and the stored pointers spell the links
   Consistent  Linked lists; a record on a chain is filed under its key's hash, one on the
               free list is blank, and no two live records have the same key
   Live        the map the consistent state stands for
   Holds       the bytes of the two files are the images of the pointers and records

 Deletion and reuse move a record between a chain and the free list, in several writes: the
 states in between are Shaped but not Consistent.
 */
module DbState {
  import opened Basics
  import opened Links
  import opened Texts
  import opened DbFormat

  datatype Db = Db(ptrs: seq<nat>, recs: seq<Rec>, links: Links)

  // ---------- keys ----------

  function SignedChar(c: char): int {
    if c as int < 128 then c as int else c as int - 256
  }

  const ULONG := 0x1_0000_0000_0000_0000

  /** The sum of _db_hash over an unsigned long: each char times its 1-based index. */
  function HashSum(key: string): nat {
    if key == "" then 0 else
    (HashSum(key[..|key| - 1]) + SignedChar(key[|key| - 1]) * |key|) % ULONG
  }

  function Hash(key: string): (h: nat)
    ensures h < NHASH
  {
    HashSum(key) % NHASH
  }

  /** The pointer slot of a key's chain. */
  function ChainOf(key: string): nat {
    1 + Hash(key)
  }

  predicate IsBlank(key: string) {
    forall i :: 0 <= i < |key| ==> key[i] == ' '
  }

  function Blanks(n: nat): (s: string)
    ensures |s| == n && IsBlank(s) && NoSeparator(s)
  {
    seq(n, i => ' ')
  }

  // ---------- shape ----------

  /** The file offset a list pointer stands for. */
  function Addr(recs: seq<Rec>, p: nat): nat
    requires p <= |recs|
  {
    if p == 0 then 0 else Offset(recs, p - 1)
  }

  ghost predicate HeadStored(db: Db, s: nat)
    requires |db.links.head| == |db.ptrs| && s < |db.ptrs|
  {
    db.links.head[s] <= |db.recs| && db.ptrs[s] == Addr(db.recs, db.links.head[s])
  }

  ghost predicate NextStored(db: Db, i: nat)
    requires |db.links.next| == |db.recs| && i < |db.recs|
  {
    db.links.next[i] <= |db.recs| && db.recs[i].next == Addr(db.recs, db.links.next[i])
  }

  /** The files hold these records and these pointers. */
  ghost predicate Shaped(db: Db) {
    && LayoutOk(db.ptrs, db.recs)
    && Sized(db.links) && |db.links.head| == SLOTS && |db.links.next| == |db.recs|
    && (forall s: nat :: s < SLOTS ==> HeadStored(db, s))
    && (forall i: nat :: i < |db.recs| ==> NextStored(db, i))
  }

  function Image(db: Db): string {
    IdxImage(db.ptrs, db.recs)
  }

  ghost function PlaceOffset(db: Db, p: Place): nat
    requires SiteOk(db.recs, p)
  {
    SiteOffset(db.recs, p)
  }

  // ---------- physical writes ----------

  /** _db_writeptr of the pointer w at place p. */
  ghost function SetPtr(db: Db, p: Place, w: nat): Db
    requires Shaped(db) && SiteOk(db.recs, p) && w <= |db.recs|
  {
    var a := Addr(db.recs, w);
    Db(SetPtrs(db.ptrs, p, a), SetRecs(db.recs, p, a), Set(db.links, p, w))
  }

  lemma SetPtrKeeps(db: Db, p: Place, w: nat)
    requires Shaped(db) && SiteOk(db.recs, p) && w <= |db.recs| && Addr(db.recs, w) <= PTR_MAX
    ensures var f := Decimal.Field(PTR_SZ, Addr(db.recs, w));
            && |f| == PTR_SZ && PlaceOffset(db, p) + PTR_SZ <= |Image(db)|
            && Image(SetPtr(db, p, w)) == Splice(Image(db), PlaceOffset(db, p), f)
    ensures Shaped(SetPtr(db, p, w))
    ensures DatImage(SetPtr(db, p, w).recs) == DatImage(db.recs)
    ensures SameOffsets(db.recs, SetPtr(db, p, w).recs)
  {
    hide Offset, SiteOffset, DatOff, IdxImage, Decimal.Field, DatImage, RecsOk, Splice;
    var a := Addr(db.recs, w);
    PtrWrite(db.ptrs, db.recs, p, a);
    NextKeepsLayout(db.recs, p, a);
    var db' := SetPtr(db, p, w);
    KeepAddrs(db, db');
    RestStored(db, db', p);
  }

  /** A new next pointer moves no record and changes no data. */
  lemma NextKeepsLayout(recs: seq<Rec>, p: Place, a: nat)
    requires RecsOk(recs) && SiteOk(recs, p) && a <= PTR_MAX
    ensures SameOffsets(recs, SetRecs(recs, p, a))
    ensures DatImage(SetRecs(recs, p, a)) == DatImage(recs)
  {
    if p.Next? {
      UpdateKeepsLayout(recs, p.i, recs[p.i].(next := a));
      assert DatTexts(SetRecs(recs, p, a)) == DatTexts(recs);
    }
  }

  ghost predicate SameOffsets(recs: seq<Rec>, recs': seq<Rec>) {
    |recs| == |recs'| && forall j: nat :: j <= |recs| ==> Offset(recs', j) == Offset(recs, j)
  }

  lemma KeepAddrs(db: Db, db': Db)
    requires SameOffsets(db.recs, db'.recs)
    ensures forall p: nat :: p <= |db.recs| ==> Addr(db'.recs, p) == Addr(db.recs, p)
  {
  }

  /** Writes elsewhere leave the other pointers stored. */
  lemma RestStored(db: Db, db': Db, p: Place)
    requires Shaped(db) && SiteOk(db.recs, p)
    requires LayoutOk(db'.ptrs, db'.recs) && SameOffsets(db.recs, db'.recs)
    requires Sized(db'.links) && |db'.links.head| == SLOTS && |db'.links.next| == |db'.recs|
    requires forall s: nat :: s < SLOTS && p != Head(s) ==>
             db'.links.head[s] == db.links.head[s] && db'.ptrs[s] == db.ptrs[s]
    requires forall i: nat :: i < |db.recs| && p != Next(i) ==>
                              db'.links.next[i] == db.links.next[i] && db'.recs[i].next == db.recs[i].next
    requires match p case Head(s) => HeadStored(db', s) case Next(i) => NextStored(db', i)
    ensures Shaped(db')
  {
    hide Offset, RecsOk;
    KeepAddrs(db, db');
    forall s: nat | s < SLOTS ensures HeadStored(db', s) {
      assert HeadStored(db, s);
    }
    forall i: nat | i < |db.recs| ensures NextStored(db', i) {
      assert NextStored(db, i);
    }
  }

  lemma SameData(recs: seq<Rec>, i: nat, r: Rec)
    requires i < |recs| && r.data == recs[i].data
    ensures DatImage(recs[i := r]) == DatImage(recs)
  {
    assert DatTexts(recs[i := r]) == DatTexts(recs);
  }

  /** _db_writeidx over record i: new pointer and key, same sizes. */
  ghost function SetRec(db: Db, i: nat, key: string, w: nat): Db
    requires Shaped(db) && i < |db.recs| && w <= |db.recs|
  {
    Db(db.ptrs, db.recs[i := Rec(Addr(db.recs, w), key, db.recs[i].data)], Set(db.links, Next(i), w))
  }

  lemma SetRecKeeps(db: Db, i: nat, key: string, w: nat)
    requires Shaped(db) && i < |db.recs| && w <= |db.recs| && Addr(db.recs, w) <= PTR_MAX
    requires |key| == |db.recs[i].key| && NoSeparator(key)
    ensures var t := TextOf(SetRec(db, i, key, w).recs[i], DatOff(db.recs, i));
            && Offset(db.recs, i) + |t| <= |Image(db)|
            && Image(SetRec(db, i, key, w)) == Splice(Image(db), Offset(db.recs, i), t)
    ensures Shaped(SetRec(db, i, key, w))
    ensures DatImage(SetRec(db, i, key, w).recs) == DatImage(db.recs)
    ensures SameOffsets(db.recs, SetRec(db, i, key, w).recs)
  {
    hide Offset, DatOff, IdxImage, TextOf, DatImage, RecsOk, Splice, NoSeparator;
    var r := Rec(Addr(db.recs, w), key, db.recs[i].data);
    var db' := SetRec(db, i, key, w);
    RecWrite(db.ptrs, db.recs, i, r);
    UpdateKeepsLayout(db.recs, i, r);
    SameData(db.recs, i, r);
    KeepAddrs(db, db');
    assert NextStored(db', i);
    RestStored(db, db', Next(i));
  }

  lemma SameIndex(ptrs: seq<nat>, recs: seq<Rec>, i: nat, data: string)
    requires i < |recs| && |data| == |recs[i].data|
    ensures IdxImage(ptrs, recs[i := recs[i].(data := data)]) == IdxImage(ptrs, recs)
  {
    var recs' := recs[i := recs[i].(data := data)];
    forall j | 0 <= j < |recs| ensures RecTexts(recs')[j] == RecTexts(recs)[j] {
      DatOffFrame(recs, i, recs'[i], j);
      assert TextOf(recs'[j], DatOff(recs, j)) == TextOf(recs[j], DatOff(recs, j));
    }
    assert RecTexts(recs') == RecTexts(recs);
  }

  /** _db_writedat over record i's data, same length. */
  ghost function SetData(db: Db, i: nat, data: string): Db
    requires i < |db.recs|
  {
    db.(recs := db.recs[i := db.recs[i].(data := data)])
  }

  lemma SetDataKeeps(db: Db, i: nat, data: string)
    requires Shaped(db) && i < |db.recs| && |data| == |db.recs[i].data|
    ensures DatOff(db.recs, i) + |data| + 1 <= |DatImage(db.recs)|
    ensures DatImage(SetData(db, i, data).recs) == Splice(DatImage(db.recs), DatOff(db.recs, i), data + "\n")
    ensures Image(SetData(db, i, data)) == Image(db)
    ensures Shaped(SetData(db, i, data))
    ensures SameOffsets(db.recs, SetData(db, i, data).recs)
    ensures DatOff(SetData(db, i, data).recs, i) == DatOff(db.recs, i)
  {
    hide Offset, DatOff, IdxImage, DatImage, Splice, NoSeparator;
    var r := db.recs[i].(data := data);
    var db' := SetData(db, i, data);
    assert RecOk(db.recs[i], DatOff(db.recs, i)) && NextStored(db, i);
    DatUpdate(db.recs, i, r);
    UpdateKeepsLayout(db.recs, i, r);
    SameIndex(db.ptrs, db.recs, i, data);
    KeepAddrs(db, db');
    RestStored(db, db', Next(i));
  }

  /** _db_writedat and _db_writeidx at the ends of the files. */
  ghost function Append(db: Db, key: string, data: string, w: nat): Db
    requires w <= |db.recs|
  {
    Db(db.ptrs, db.recs + [Rec(Addr(db.recs, w), key, data)], Grow(db.links, w))
  }

  lemma AppendKeeps(db: Db, key: string, data: string, w: nat)
    requires Shaped(db) && w <= |db.recs|
    requires RecOk(Rec(Addr(db.recs, w), key, data), |DatImage(db.recs)|)
    ensures var db' := Append(db, key, data, w);
            && Shaped(db')
            && DatImage(db'.recs) == DatImage(db.recs) + data + "\n"
            && Image(db') == Image(db) + TextOf(db'.recs[|db.recs|], |DatImage(db.recs)|)
    ensures Offset(Append(db, key, data, w).recs, |db.recs|) == |Image(db)|
    ensures forall j: nat :: j <= |db.recs| ==> Offset(Append(db, key, data, w).recs, j) == Offset(db.recs, j)
  {
    hide Offset, DatOff, IdxImage, DatImage, TextOf, RecOk;
    var r := Rec(Addr(db.recs, w), key, data);
    var db' := Append(db, key, data, w);
    AppendRec(db.ptrs, db.recs, r);
    IdxSize(db.ptrs, db.recs);
    Associate(DatImage(db.recs), data, "\n");
    forall s: nat | s < SLOTS ensures HeadStored(db', s) {
      assert HeadStored(db, s);
    }
    forall i: nat | i < |db'.recs| ensures NextStored(db', i) {
      if i < |db.recs| {
        assert NextStored(db, i);
      }
    }
  }

  // ---------- consistency ----------

  ghost predicate IsLive(db: Db, i: nat) {
    i < |db.recs| && i < |db.links.owner| && db.links.owner[i] != 0
  }

  ghost predicate KeysDistinct(db: Db) {
    forall i: nat, j: nat :: IsLive(db, i) && IsLive(db, j) && i != j ==> db.recs[i].key != db.recs[j].key
  }

  /** Record i is on the free list with a blank key, or on the chain of its own key, and can be pointed to. */
  ghost predicate Filed(db: Db, i: nat)
    requires i < |db.recs| == |db.links.owner|
  {
    && Offset(db.recs, i) <= PTR_MAX
    && if db.links.owner[i] == 0 then IsBlank(db.recs[i].key)
       else db.links.owner[i] == ChainOf(db.recs[i].key)
  }

  /** What every operation keeps. */
  ghost predicate Consistent(db: Db) {
    && Shaped(db)
    && Linked(db.links)
    && (forall i: nat :: i < |db.recs| ==> Filed(db, i))
    && KeysDistinct(db)
  }

  /** The map the database stands for: the live keys with their data. */
  ghost function Live(db: Db): map<string, string>
    requires KeysDistinct(db)
  {
    map i | 0 <= i < |db.recs| && IsLive(db, i) :: db.recs[i].key := db.recs[i].data
  }

  lemma LiveAt(db: Db, i: nat)
    requires KeysDistinct(db) && IsLive(db, i)
    ensures db.recs[i].key in Live(db) && Live(db)[db.recs[i].key] == db.recs[i].data
  {
  }

  /** Position k of list s holds a record with another key. */
  ghost predicate OtherKey(db: Db, s: nat, k: nat, key: string) {
    && s < |db.links.lists| && k < |db.links.lists[s]| && db.links.lists[s][k] < |db.recs|
    && db.recs[db.links.lists[s][k]].key != key
  }

  /** Every key of the map is met on its chain. */
  lemma OnChain(db: Db, key: string) returns (k: nat)
    requires Consistent(db) && key in Live(db)
    ensures k < |db.links.lists[ChainOf(key)]| && !OtherKey(db, ChainOf(key), k, key)
  {
    assert Covered(db.links);
    hide LayoutOk, HeadStored, NextStored, Hash, Linked;
    var i: nat :| IsLive(db, i) && db.recs[i].key == key;
    assert Filed(db, i);
    k :| 0 <= k < |db.links.lists[ChainOf(key)]| && db.links.lists[ChainOf(key)][k] == i;
  }

  // ---------- changing one record ----------

  ghost predicate SameEntry(db: Db, db': Db, j: nat)
    requires j < |db.recs| == |db.links.owner| && j < |db'.recs| == |db'.links.owner|
  {
    && db'.recs[j].key == db.recs[j].key && db'.recs[j].data == db.recs[j].data
    && db'.links.owner[j] == db.links.owner[j]
    && Offset(db'.recs, j) == Offset(db.recs, j)
  }

  /** db' differs from db in record i only, which may be new. */
  ghost predicate DiffersAt(db: Db, db': Db, i: nat) {
    && |db.recs| == |db.links.owner| && |db'.recs| == |db'.links.owner|
    && i < |db'.recs|
    && (|db'.recs| == |db.recs| || (i == |db.recs| && |db'.recs| == |db.recs| + 1))
    && (forall j: nat :: j < |db.recs| && j != i ==> SameEntry(db, db', j))
  }

  /** The map without record i. */
  ghost function Others(db: Db, i: nat): map<string, string>
    requires KeysDistinct(db)
  {
    if IsLive(db, i) then Live(db) - {db.recs[i].key} else Live(db)
  }

  lemma OthersAt(db: Db, i: nat, j: nat)
    requires KeysDistinct(db) && IsLive(db, j) && j != i
    ensures db.recs[j].key in Others(db, i) && Others(db, i)[db.recs[j].key] == db.recs[j].data
  {
    LiveAt(db, j);
  }

  lemma OthersFrom(db: Db, i: nat, key: string) returns (j: nat)
    requires KeysDistinct(db) && key in Others(db, i)
    ensures IsLive(db, j) && j != i && db.recs[j].key == key
  {
    j :| IsLive(db, j) && db.recs[j].key == key;
  }

  lemma DistinctAfter(db: Db, db': Db, i: nat)
    requires KeysDistinct(db) && DiffersAt(db, db', i)
    requires IsLive(db', i) ==> db'.recs[i].key !in Others(db, i)
    ensures KeysDistinct(db')
  {
    forall j: nat | IsLive(db', j) && j != i ensures IsLive(db, j) && db'.recs[j].key == db.recs[j].key {
      assert SameEntry(db, db', j);
    }
    forall j: nat | IsLive(db', j) && j != i ensures db'.recs[j].key in Others(db, i) {
      OthersAt(db, i, j);
    }
  }

  lemma LiveAfter(db: Db, db': Db, i: nat)
    requires KeysDistinct(db) && DiffersAt(db, db', i) && KeysDistinct(db')
    ensures Others(db', i) == Others(db, i)
    ensures Live(db') == if IsLive(db', i) then Others(db, i)[db'.recs[i].key := db'.recs[i].data] else Others(db, i)
  {
    hide KeysDistinct, Live, SameEntry;
    OthersKept(db, db', i);
    if IsLive(db', i) {
      LiveAt(db', i);
    }
  }

  lemma OthersKept(db: Db, db': Db, i: nat)
    requires KeysDistinct(db) && DiffersAt(db, db', i) && KeysDistinct(db')
    ensures Others(db', i) == Others(db, i)
  {
    hide KeysDistinct, Others, IsLive;
    forall key | key in Others(db, i) ensures key in Others(db', i) && Others(db', i)[key] == Others(db, i)[key] {
      var j := OthersFrom(db, i, key);
      SameLive(db, db', i, j);
      OthersAt(db, i, j);
      OthersAt(db', i, j);
    }
    forall key | key in Others(db', i) ensures key in Others(db, i) {
      var j := OthersFrom(db', i, key);
      SameLive(db, db', i, j);
      OthersAt(db, i, j);
    }
  }

  lemma SameLive(db: Db, db': Db, i: nat, j: nat)
    requires DiffersAt(db, db', i) && j != i
    ensures IsLive(db, j) <==> IsLive(db', j)
    ensures IsLive(db, j) ==> db'.recs[j].key == db.recs[j].key && db'.recs[j].data == db.recs[j].data
  {
    hide Offset;
    if j < |db.recs| {
      assert SameEntry(db, db', j);
    }
  }

  /** Replacing or adding one record keeps consistency, if it is filed properly under a key nobody else has. */
  lemma Refile(db: Db, db': Db, i: nat)
    requires Consistent(db) && Shaped(db') && Linked(db'.links) && DiffersAt(db, db', i)
    requires Filed(db', i)
    requires IsLive(db', i) ==> db'.recs[i].key !in Others(db, i)
    ensures Consistent(db')
    ensures Live(db') == if IsLive(db', i) then Others(db, i)[db'.recs[i].key := db'.recs[i].data] else Others(db, i)
  {
    DistinctAfter(db, db', i);
    LiveAfter(db, db', i);
    hide LayoutOk, HeadStored, NextStored, Linked, Offset, Hash, Live, Others;
    forall j: nat | j < |db'.recs| ensures Filed(db', j) {
      if j != i {
        assert Filed(db, j) && SameEntry(db, db', j);
      }
    }
  }

  // ---------- the operations, once their writes are done ----------

  /** The writes of db have been made in d, with record i moved from one list to the front of another. */
  ghost predicate MoveWritten(db: Db, d: Db, from: nat, k: nat, to: nat)
    requires Linked(db.links) && from < |db.links.lists| && k < |db.links.lists[from]|
    requires to < |db.links.lists| && from != to && |db.recs| == |db.links.owner|
  {
    MovedKeeps(db.links, from, k, to);
    var (i, M) := (db.links.lists[from][k], Moved(db.links, from, k, to));
    && Shaped(d) && SameOffsets(db.recs, d.recs) && i < |d.recs|
    && d.links.head == M.head && d.links.next == M.next
    && forall j: nat :: j < |db.recs| && j != i ==> d.recs[j].key == db.recs[j].key && d.recs[j].data == db.recs[j].data
  }

  ghost function MoveResult(db: Db, d: Db, from: nat, k: nat, to: nat): Db
    requires Linked(db.links) && from < |db.links.lists| && k < |db.links.lists[from]|
    requires to < |db.links.lists| && from != to
  {
    MovedKeeps(db.links, from, k, to);
    d.(links := Moved(db.links, from, k, to))
  }

  lemma MoveDone(db: Db, d: Db, from: nat, k: nat, to: nat, i: nat)
    requires Consistent(db) && from < SLOTS && k < |db.links.lists[from]| && to < SLOTS
    requires from != to && (from == 0 || to == 0) && i == db.links.lists[from][k]
    requires MoveWritten(db, d, from, k, to)
    requires if to == 0 then IsBlank(d.recs[i].key) else to == ChainOf(d.recs[i].key) && d.recs[i].key !in Live(db)
    ensures Consistent(MoveResult(db, d, from, k, to))
    ensures Live(MoveResult(db, d, from, k, to))
            == if to == 0 then Live(db) - {db.recs[i].key} else Live(db)[d.recs[i].key := d.recs[i].data]
  {
    var d' := MoveResult(db, d, from, k, to);
    MovedKeeps(db.links, from, k, to);
    assert Entry(db.links, from, k) && Filed(db, i);
    MoveShaped(db, d, from, k, to);
    MoveDiffers(db, d, from, k, to);
    assert Filed(d', i);
    assert IsLive(d', i) == (to != 0) && IsLive(db, i) == (from != 0);
    assert Others(db, i) == if from == 0 then Live(db) else Live(db) - {db.recs[i].key};
    hide *;
    Refile(db, d', i);
  }

  lemma MoveShaped(db: Db, d: Db, from: nat, k: nat, to: nat)
    requires Consistent(db) && from < SLOTS && k < |db.links.lists[from]| && to < SLOTS && from != to
    requires MoveWritten(db, d, from, k, to)
    ensures Shaped(MoveResult(db, d, from, k, to)) && Linked(MoveResult(db, d, from, k, to).links)
  {
    hide Moved, LayoutOk, Linked;
    MovedKeeps(db.links, from, k, to);
    Linkedly(Moved(db.links, from, k, to));
    Relist(d, MoveResult(db, d, from, k, to));
  }

  lemma Linkedly(L: Links)
    requires Linked(L)
    ensures Sized(L)
  {
  }

  lemma MoveDiffers(db: Db, d: Db, from: nat, k: nat, to: nat)
    requires Consistent(db) && from < SLOTS && k < |db.links.lists[from]| && to < SLOTS && from != to
    requires MoveWritten(db, d, from, k, to)
    ensures DiffersAt(db, MoveResult(db, d, from, k, to), db.links.lists[from][k])
    ensures MoveResult(db, d, from, k, to).links.owner == db.links.owner[db.links.lists[from][k] := to]
  {
    var (i, d') := (db.links.lists[from][k], MoveResult(db, d, from, k, to));
    MovedKeeps(db.links, from, k, to);
    assert Entry(db.links, from, k);
    hide Moved, LayoutOk, Linked, Offset;
    forall j: nat | j < |db.recs| && j != i ensures SameEntry(db, d', j) {
    }
  }

  /** A record appended in hand and then pointed to by its chain's slot is in the map. */
  lemma AppendDone(db: Db, d: Db, e: Db, s: nat, key: string, data: string)
    requires Consistent(db) && s == ChainOf(key) && key !in Live(db) && HeadStored(db, s)
    requires d == Append(db, key, data, db.links.head[s]) && Shaped(d)
    requires forall j: nat :: j <= |db.recs| ==> Offset(d.recs, j) == Offset(db.recs, j)
    requires Offset(d.recs, |db.recs|) <= PTR_MAX
    requires e == SetPtr(d, Head(s), |d.recs|) && Shaped(e)
    ensures |e.links.owner| > 0
    ensures var e' := e.(links := Push(d.links, s, |db.recs|));
            Consistent(e') && Live(e') == Live(db)[key := data]
  {
    hide LayoutOk, Offset, Hash, Live, Addr;
    var (n, e') := (|db.recs|, e.(links := Push(d.links, s, |db.recs|)));
    AppendLinks(db.links, s);
    assert e'.links.head == e.links.head && e'.links.next == e.links.next;
    Relist(e, e');
    AppendDiffers(db, d, e', s);
    Refile(db, e', n);
  }

  lemma AppendLinks(L: Links, s: nat)
    requires Linked(L) && s < |L.lists|
    ensures Linked(Push(Grow(L, L.head[s]), s, |L.owner|))
  {
    hide Entries, Acyclic, Covered, HeadsOk;
    GrowKeeps(L, L.head[s]);
    PushKeeps(Grow(L, L.head[s]), s, |L.owner|);
  }

  /** The shape does not depend on which lists the pointers spell. */
  lemma Relist(d: Db, d': Db)
    requires Shaped(d) && d'.ptrs == d.ptrs && d'.recs == d.recs && Sized(d'.links)
    requires d'.links.head == d.links.head && d'.links.next == d.links.next
    ensures Shaped(d')
  {
    hide RecsOk, Addr;
    forall t: nat | t < SLOTS ensures HeadStored(d', t) {
      assert HeadStored(d, t);
    }
    forall j: nat | j < |d.recs| ensures NextStored(d', j) {
      assert NextStored(d, j);
    }
  }

  lemma AppendDiffers(db: Db, d: Db, e: Db, s: nat)
    requires |db.recs| == |db.links.owner| && |d.recs| == |db.recs| + 1 && e.recs == d.recs
    requires forall j: nat :: j < |db.recs| ==> d.recs[j] == db.recs[j]
    requires |e.links.owner| == |e.recs| && forall j: nat :: j < |db.recs| ==> e.links.owner[j] == db.links.owner[j]
    requires forall j: nat :: j <= |db.recs| ==> Offset(d.recs, j) == Offset(db.recs, j)
    ensures DiffersAt(db, e, |db.recs|)
  {
    hide Offset;
    forall j: nat | j < |db.recs| ensures SameEntry(db, e, j) {
    }
  }

  /** Overwriting a live record's data changes that key's value. */
  lemma OverwriteDone(db: Db, i: nat, data: string)
    requires Consistent(db) && IsLive(db, i) && |data| == |db.recs[i].data|
    ensures Consistent(SetData(db, i, data))
    ensures Live(SetData(db, i, data)) == Live(db)[db.recs[i].key := data]
  {
    var d := SetData(db, i, data);
    SetDataShape(db, i, data);
    OverwriteDiffers(db, i, data);
    OverwriteLive(db, i, data);
    assert Linked(d.links);
    hide *;
    Refile(db, d, i);
    assert Live(d) == Others(db, i)[db.recs[i].key := data];
  }

  lemma SetDataShape(db: Db, i: nat, data: string)
    requires Shaped(db) && i < |db.recs| && |data| == |db.recs[i].data|
    ensures Shaped(SetData(db, i, data)) && SameOffsets(db.recs, SetData(db, i, data).recs)
  {
    hide *;
    SetDataKeeps(db, i, data);
  }

  lemma OverwriteLive(db: Db, i: nat, data: string)
    requires Consistent(db) && IsLive(db, i) && |data| == |db.recs[i].data|
    ensures var d := SetData(db, i, data);
            IsLive(d, i) && Filed(d, i) && d.recs[i].key == db.recs[i].key && d.recs[i].data == data
    ensures db.recs[i].key !in Others(db, i)
    ensures Others(db, i)[db.recs[i].key := data] == Live(db)[db.recs[i].key := data]
  {
    SetDataShape(db, i, data);
    assert Filed(db, i);
    hide Consistent, Shaped, KeysDistinct, Offset, Hash, Live;
    ReplaceKey(Live(db), db.recs[i].key, data);
  }

  lemma ReplaceKey(m: map<string, string>, key: string, data: string)
    ensures (m - {key})[key := data] == m[key := data]
  {
  }

  lemma OverwriteDiffers(db: Db, i: nat, data: string)
    requires Consistent(db) && IsLive(db, i) && |data| == |db.recs[i].data|
    ensures DiffersAt(db, SetData(db, i, data), i)
  {
    SetDataShape(db, i, data);
    hide Offset, LayoutOk, Linked;
    forall j: nat | j < |db.recs| && j != i ensures SameEntry(db, SetData(db, i, data), j) {
    }
  }

  // ---------- reads and writes of the files ----------

  /** The two files hold the pointers and records of db. */
  ghost predicate Holds(db: Db, idx: string, dat: string) {
    idx == Image(db) && dat == DatImage(db.recs)
  }

  lemma PtrStored(db: Db, p: Place)
    requires Shaped(db) && SiteOk(db.recs, p)
    ensures LayoutOk(db.ptrs, db.recs) && |db.ptrs| == SLOTS && PlaceOk(db.links, p) && Get(db.links, p) <= |db.recs|
    ensures SiteValue(db.ptrs, db.recs, p) == Addr(db.recs, Get(db.links, p))
  {
    hide RecsOk, Addr;
    match p
    case Head(s) => assert HeadStored(db, s);
    case Next(i) => assert NextStored(db, i);
  }

  lemma PtrRead(db: Db, idx: string, dat: string, p: Place, off: nat)
    requires Shaped(db) && Holds(db, idx, dat) && SiteOk(db.recs, p) && off == PlaceOffset(db, p)
    ensures off + PTR_SZ <= |idx| && PlaceOk(db.links, p) && Get(db.links, p) <= |db.recs|
    ensures Decimal.Atol(idx[off..off + PTR_SZ]) == Addr(db.recs, Get(db.links, p))
  {
    hide Decimal.Atol, IdxImage, SiteOffset, SiteValue, Addr, Shaped, DatImage, LayoutOk;
    PtrStored(db, p);
    PtrReadBack(db.ptrs, db.recs, p);
  }

  lemma PtrWritten(db: Db, idx: string, dat: string, p: Place, w: nat, off: nat, f: string)
    requires Shaped(db) && Holds(db, idx, dat) && SiteOk(db.recs, p) && off == PlaceOffset(db, p)
    requires w <= |db.recs| && Addr(db.recs, w) <= PTR_MAX && f == Decimal.Field(PTR_SZ, Addr(db.recs, w))
    ensures off + |f| <= |idx| && |f| == PTR_SZ
    ensures Shaped(SetPtr(db, p, w)) && Holds(SetPtr(db, p, w), Splice(idx, off, f), dat)
  {
    hide SetPtr, Image, Decimal.Field, Addr, DatImage, Shaped, Splice;
    SetPtrKeeps(db, p, w);
  }

  /** Only the end of the last record is the end of the index file. */
  lemma IdxEnd(db: Db, idx: string, dat: string, i: nat)
    requires Shaped(db) && Holds(db, idx, dat) && i <= |db.recs|
    ensures Offset(db.recs, i) == |idx| <==> i == |db.recs|
  {
    IdxSize(db.ptrs, db.recs);
    if i < |db.recs| {
      TextSize(db.recs[i], DatOff(db.recs, i));
      hide TextOf, DatOff, IdxImage, DatImage;
      AtMonotone(RecTexts(db.recs), i + 1, |db.recs|);
    }
  }

  lemma IdxRead(db: Db, idx: string, dat: string, i: nat, off: nat, len: nat)
    requires Shaped(db) && Holds(db, idx, dat) && i < |db.recs| && off == Offset(db.recs, i)
    requires len == |Body(db.recs[i].key, DatOff(db.recs, i), db.recs[i].DatLen())|
    ensures IDXLEN_MIN <= len <= IDXLEN_MAX
    ensures Offset(db.recs, i + 1) == off + PTR_SZ + IDXLEN_SZ + len <= |idx|
    ensures Decimal.Atol(idx[off..off + PTR_SZ]) == db.recs[i].next
    ensures Decimal.Atol(idx[off + PTR_SZ..off + PTR_SZ + IDXLEN_SZ]) == len
    ensures ParseBody(idx[off + PTR_SZ + IDXLEN_SZ..off + PTR_SZ + IDXLEN_SZ + len])
            == Some(Parsed(db.recs[i].key, DatOff(db.recs, i), db.recs[i].DatLen()))
  {
    assert LayoutOk(db.ptrs, db.recs);
    hide Shaped, DatImage, IdxImage, Body, ParseBody, Decimal.Atol, Offset, DatOff, LayoutOk;
    ReadRec(db.ptrs, db.recs, i, off, len);
  }

  lemma DatRead(db: Db, idx: string, dat: string, i: nat, off: nat, len: nat)
    requires Shaped(db) && Holds(db, idx, dat) && i < |db.recs| && off == DatOff(db.recs, i)
    requires len == db.recs[i].DatLen()
    ensures off + len <= |dat|
    ensures dat[off..off + len][len - 1] == '\n' && dat[off..off + len][..len - 1] == db.recs[i].data
  {
    hide DatImage, DatOff, Shaped, IdxImage, DatText;
    Chomp(db.recs[i]);
    DatUpdate(db.recs, i, db.recs[i]);
  }

  lemma Chomp(r: Rec)
    ensures |DatText(r)| == r.DatLen() && DatText(r)[|r.data|] == '\n' && DatText(r)[..|r.data|] == r.data
  {
  }

  lemma DatWritten(db: Db, idx: string, dat: string, i: nat, data: string, off: nat)
    requires Shaped(db) && Holds(db, idx, dat) && i < |db.recs| && off == DatOff(db.recs, i)
    requires |data| == |db.recs[i].data|
    ensures off + |data + "\n"| <= |dat|
    ensures Shaped(SetData(db, i, data)) && Holds(SetData(db, i, data), idx, Splice(dat, off, data + "\n"))
  {
    hide SetData, Image, DatImage, Shaped, Splice, DatOff;
    SetDataKeeps(db, i, data);
  }

  lemma RecIsOk(db: Db, i: nat)
    requires Shaped(db) && i < |db.recs|
    ensures RecOk(db.recs[i], DatOff(db.recs, i))
  {
    hide DatOff, RecOk, HeadStored, NextStored;
  }

  /** A well-formed record's text, as _db_writeidx puts it together. */
  lemma BodyOf(r: Rec, datoff: nat, body: string, t: string)
    requires body == Body(r.key, datoff, r.DatLen())
    requires t == Decimal.Field(PTR_SZ, r.next) + (Decimal.Field(IDXLEN_SZ, |body|) + body)
    ensures TextOf(r, datoff) == t
    ensures RecOk(r, datoff) ==> IDXLEN_MIN <= |body| <= IDXLEN_MAX
    ensures (&& IDXLEN_MIN <= |body| <= IDXLEN_MAX && NoSeparator(r.key) && r.next <= PTR_MAX
             && DATLEN_MIN <= r.DatLen() <= DATLEN_MAX) ==> RecOk(r, datoff)
  {
    hide Body, Decimal.Field, NoSeparator;
  }

  lemma IdxWritten(db: Db, idx: string, dat: string, i: nat, key: string, w: nat, off: nat, body: string, t: string)
    requires Shaped(db) && Holds(db, idx, dat) && i < |db.recs| && off == Offset(db.recs, i)
    requires w <= |db.recs| && Addr(db.recs, w) <= PTR_MAX && |key| == |db.recs[i].key| && NoSeparator(key)
    requires body == Body(key, DatOff(db.recs, i), db.recs[i].DatLen())
    requires t == Decimal.Field(PTR_SZ, Addr(db.recs, w)) + (Decimal.Field(IDXLEN_SZ, |body|) + body)
    ensures IDXLEN_MIN <= |body| <= IDXLEN_MAX && off + |t| <= |idx|
    ensures Shaped(SetRec(db, i, key, w)) && Holds(SetRec(db, i, key, w), Splice(idx, off, t), dat)
  {
    hide Image, Decimal.Field, Addr, DatImage, Shaped, Splice, TextOf, Body, NoSeparator, DatOff, Offset, RecOk;
    var r := Rec(Addr(db.recs, w), key, db.recs[i].data);
    RecIsOk(db, i);
    FitsSize(db.recs[i], r, DatOff(db.recs, i));
    BodyOf(r, DatOff(db.recs, i), body, t);
    SetRecKeeps(db, i, key, w);
  }

  lemma BothAppended(db: Db, idx: string, dat: string, key: string, data: string, w: nat, body: string, t: string)
    requires Shaped(db) && Holds(db, idx, dat)
    requires w <= |db.recs| && Addr(db.recs, w) <= PTR_MAX && NoSeparator(key)
    requires body == Body(key, |dat|, |data| + 1) && IDXLEN_MIN <= |body| <= IDXLEN_MAX
    requires DATLEN_MIN <= |data| + 1 <= DATLEN_MAX
    requires t == Decimal.Field(PTR_SZ, Addr(db.recs, w)) + (Decimal.Field(IDXLEN_SZ, |body|) + body)
    ensures Shaped(Append(db, key, data, w)) && Holds(Append(db, key, data, w), idx + t, dat + data + "\n")
    ensures Offset(Append(db, key, data, w).recs, |db.recs|) == |idx|
    ensures forall j: nat :: j <= |db.recs| ==> Offset(Append(db, key, data, w).recs, j) == Offset(db.recs, j)
  {
    hide Image, Decimal.Field, Addr, DatImage, Shaped, TextOf, Body, NoSeparator, RecOk, Offset;
    BodyOf(Rec(Addr(db.recs, w), key, data), |dat|, body, t);
    AppendKeeps(db, key, data, w);
  }

  // ---------- walking a list ----------

  /** Position k of list s, as the walks of db.c see it: a pointer, 0 at the end, and the place it was read from. */
  lemma Walk(db: Db, s: nat, k: nat)
    requires Shaped(db) && Linked(db.links) && s < SLOTS && k <= |db.links.lists[s]|
    ensures To(db.links.lists[s], k) <= |db.recs| && SiteOk(db.recs, PlaceOf(db.links, s, k))
    ensures Get(db.links, PlaceOf(db.links, s, k)) == To(db.links.lists[s], k)
    ensures Addr(db.recs, To(db.links.lists[s], k)) == 0 <==> k == |db.links.lists[s]|
    ensures k < |db.links.lists[s]| ==>
              && db.links.lists[s][k] < |db.recs| && db.links.lists[s][k] + 1 == To(db.links.lists[s], k)
              && To(db.links.lists[s], k + 1) <= |db.recs|
              && db.links.owner[db.links.lists[s][k]] == s
              && db.links.next[db.links.lists[s][k]] == To(db.links.lists[s], k + 1)
              && Addr(db.recs, To(db.links.lists[s], k)) == Offset(db.recs, db.links.lists[s][k])
              && db.recs[db.links.lists[s][k]].next == Addr(db.recs, To(db.links.lists[s], k + 1))
              && PlaceOf(db.links, s, k + 1) == Next(db.links.lists[s][k])
  {
    hide LayoutOk, Offset, Acyclic, Covered;
    PlaceHolds(db.links, s, k);
    if k < |db.links.lists[s]| {
      assert Entry(db.links, s, k);
      assert NextStored(db, db.links.lists[s][k]);
      OffsetPositive(db.recs, db.links.lists[s][k]);
    }
  }

  lemma OffsetPositive(recs: seq<Rec>, i: nat)
    requires i <= |recs|
    ensures Offset(recs, i) >= RECORDS
  {
  }

  // ---------- the writes of an operation, one after another ----------

  /** A write that moves nothing: offsets and sizes are as before. */
  ghost predicate Still(db: Db, db': Db) {
    && Shaped(db') && SameOffsets(db.recs, db'.recs)
    && forall j: nat :: j < |db.recs| ==> DatOff(db'.recs, j) == DatOff(db.recs, j)
  }

  lemma StillPtr(db: Db, p: Place, w: nat)
    requires Shaped(db) && SiteOk(db.recs, p) && w <= |db.recs| && Addr(db.recs, w) <= PTR_MAX
    ensures Still(db, SetPtr(db, p, w))
  {
    if p.Next? {
      UpdateKeepsLayout(db.recs, p.i, db.recs[p.i].(next := Addr(db.recs, w)));
    }
    hide Shaped, Offset, DatOff, Addr;
    SetPtrKeeps(db, p, w);
  }

  lemma StillRec(db: Db, i: nat, key: string, w: nat)
    requires Shaped(db) && i < |db.recs| && w <= |db.recs| && Addr(db.recs, w) <= PTR_MAX
    requires |key| == |db.recs[i].key| && NoSeparator(key)
    ensures Still(db, SetRec(db, i, key, w))
  {
    UpdateKeepsLayout(db.recs, i, Rec(Addr(db.recs, w), key, db.recs[i].data));
    hide Shaped, Offset, DatOff, Addr, NoSeparator;
    SetRecKeeps(db, i, key, w);
  }

  lemma StillData(db: Db, i: nat, data: string)
    requires Shaped(db) && i < |db.recs| && |data| == |db.recs[i].data|
    ensures Still(db, SetData(db, i, data))
  {
    assert RecOk(db.recs[i], DatOff(db.recs, i));
    UpdateKeepsLayout(db.recs, i, db.recs[i].(data := data));
    hide Shaped, Offset, DatOff;
    SetDataShape(db, i, data);
  }

  /** Still states agree on where everything is. */
  lemma StillPlaces(db: Db, db': Db, p: Place)
    requires Still(db, db') && SiteOk(db.recs, p)
    ensures SiteOk(db'.recs, p) && PlaceOffset(db', p) == PlaceOffset(db, p)
  {
    hide Shaped, Offset, DatOff;
  }

  lemma StillAddr(db: Db, db': Db, w: nat)
    requires Still(db, db') && w <= |db.recs|
    ensures |db'.recs| == |db.recs| && Addr(db'.recs, w) == Addr(db.recs, w)
  {
    hide Shaped, Offset, DatOff;
  }

  lemma StillTrans(a: Db, b: Db, c: Db)
    requires Still(a, b) && Still(b, c)
    ensures Still(a, c)
  {
    hide Shaped, Offset, DatOff;
  }

  /** Every pointer that is stored fits its field. */
  lemma PtrFits(db: Db, p: Place)
    requires Shaped(db) && SiteOk(db.recs, p)
    ensures PlaceOk(db.links, p) && Get(db.links, p) <= |db.recs| && Addr(db.recs, Get(db.links, p)) <= PTR_MAX
  {
    match p
    case Head(s) => assert HeadStored(db, s);
    case Next(i) => assert NextStored(db, i) && RecOk(db.recs[i], DatOff(db.recs, i));
  }

  ghost predicate SizesOk(db: Db) {
    && |db.links.lists| == |db.links.head| == |db.ptrs| == SLOTS
    && |db.links.owner| == |db.links.next| == |db.recs|
  }

  /** Consistency gives what the walks and the moves need. */
  lemma Ready(db: Db)
    requires Consistent(db)
    ensures Shaped(db) && Linked(db.links) && SizesOk(db) && KeysDistinct(db)
  {
  }

  /** A record on a list can be pointed to. */
  lemma RecFits(db: Db, i: nat)
    requires Consistent(db) && i < |db.recs|
    ensures Offset(db.recs, i) <= PTR_MAX
  {
    assert Filed(db, i);
  }

  /** The writes of _db_dodelete, in order, move the record to the free list. */
  lemma DeleteWritten(d0: Db, s: nat, k: nat, i: nat, place: Place, d1: Db, d2: Db, d3: Db, d4: Db)
    requires Linked(d0.links) && SizesOk(d0) && 0 < s < SLOTS && k < |d0.links.lists[s]|
    requires i == d0.links.lists[s][k] < |d0.recs|
    requires place == PlaceOf(d0.links, s, k) && d0.links.head[0] <= |d0.recs| && d0.links.next[i] <= |d0.recs|
    requires d1 == SetData(d0, i, Blanks(|d0.recs[i].data|)) && Shaped(d1)
    requires d2 == SetRec(d1, i, Blanks(|d0.recs[i].key|), d0.links.head[0]) && Shaped(d2) && SiteOk(d2.recs, Head(0))
    requires d3 == SetPtr(d2, Head(0), i + 1) && Shaped(d3) && SiteOk(d3.recs, place)
    requires d4 == SetPtr(d3, place, d0.links.next[i]) && Still(d0, d4)
    ensures MoveWritten(d0, d4, s, k, 0) && IsBlank(d4.recs[i].key)
  {
    hide Shaped, Linked, Offset, DatOff, Addr, PlaceOf, Moved;
    MoveOrder(d0.links, s, k, 0, i, place);
    assert d4.links == Set(Set(Set(d0.links, Next(i), d0.links.head[0]), Head(0), i + 1), place, d0.links.next[i]);
    forall j: nat | j < |d0.recs|
      ensures d4.recs[j].key == (if j == i then Blanks(|d0.recs[i].key|) else d0.recs[j].key)
      ensures j != i ==> d4.recs[j].data == d0.recs[j].data
    {
      assert d3.recs == d2.recs;
    }
  }

  /** The states _db_dodelete goes through, with what each of its writes needs of the one before. */
  lemma DeletePlan(d0: Db, s: nat, k: nat, i: nat, place: Place) returns (d1: Db, d2: Db, d3: Db, d4: Db)
    requires Consistent(d0) && SizesOk(d0) && 0 < s < SLOTS && k < |d0.links.lists[s]| && i == d0.links.lists[s][k]
    requires place == PlaceOf(d0.links, s, k)
    ensures i < |d0.recs| == |d1.recs| == |d2.recs| == |d3.recs| == |d4.recs|
    ensures d1 == SetData(d0, i, Blanks(|d0.recs[i].data|)) && Still(d0, d1) && Shaped(d1)
    ensures Offset(d1.recs, i) == Offset(d0.recs, i) && DatOff(d1.recs, i) == DatOff(d0.recs, i)
    ensures d1.links == d0.links && d1.recs[i].key == d0.recs[i].key && d1.recs[i].DatLen() == d0.recs[i].DatLen()
    ensures d1.links.head[0] <= |d1.recs| && Addr(d1.recs, d1.links.head[0]) <= PTR_MAX
    ensures d2 == SetRec(d1, i, Blanks(|d0.recs[i].key|), d1.links.head[0]) && Still(d0, d2) && Shaped(d2)
    ensures Addr(d2.recs, i + 1) == Offset(d0.recs, i) <= PTR_MAX
    ensures d3 == SetPtr(d2, Head(0), i + 1) && Still(d0, d3) && Shaped(d3)
    ensures SiteOk(d0.recs, place) && SiteOk(d3.recs, place) && PlaceOffset(d3, place) == PlaceOffset(d0, place)
    ensures d0.links.next[i] <= |d0.recs| && Addr(d3.recs, d0.links.next[i]) == d0.recs[i].next <= PTR_MAX
    ensures d4 == SetPtr(d3, place, d0.links.next[i]) && Still(d0, d4)
    ensures MoveWritten(d0, d4, s, k, 0) && IsBlank(d4.recs[i].key)
  {
    hide Shaped, Linked, Offset, DatOff, PlaceOf, Addr, Consistent, SetPtr, SetRec, Still, MoveWritten, IsBlank;
    hide NoSeparator;
    Ready(d0);
    Walk(d0, s, k);
    RecFits(d0, i);
    d1 := SetData(d0, i, Blanks(|d0.recs[i].data|));
    StillData(d0, i, Blanks(|d0.recs[i].data|));
    StillShaped(d0, d1);
    PtrFits(d1, Head(0));
    PtrFits(d0, Next(i));
    d2 := SetRec(d1, i, Blanks(|d0.recs[i].key|), d1.links.head[0]);
    StillRec(d1, i, Blanks(|d0.recs[i].key|), d1.links.head[0]);
    StillTrans(d0, d1, d2);
    StillShaped(d0, d2);
    StillAddr(d0, d2, i + 1);
    AddrOf(d0.recs, i);
    d3 := SetPtr(d2, Head(0), i + 1);
    StillPtr(d2, Head(0), i + 1);
    StillTrans(d0, d2, d3);
    StillShaped(d0, d3);
    StillPlaces(d0, d3, place);
    StillAddr(d0, d3, d0.links.next[i]);
    d4 := SetPtr(d3, place, d0.links.next[i]);
    StillPtr(d3, place, d0.links.next[i]);
    StillTrans(d0, d3, d4);
    StillShaped(d0, d4);
    DeleteWritten(d0, s, k, i, place, d1, d2, d3, d4);
  }

  lemma StillShaped(db: Db, db': Db)
    requires Still(db, db')
    ensures Shaped(db') && |db'.recs| == |db.recs|
    ensures forall j: nat :: j < |db.recs| ==> DatOff(db'.recs, j) == DatOff(db.recs, j)
    ensures forall j: nat :: j <= |db.recs| ==> Offset(db'.recs, j) == Offset(db.recs, j)
  {
    hide Shaped, Offset, DatOff;
  }

  lemma AddrOf(recs: seq<Rec>, i: nat)
    requires i < |recs|
    ensures Addr(recs, i + 1) == Offset(recs, i)
  {
  }

  /** The writes of the reuse path of db_store move a free record to its chain under the new key. */
  lemma ReuseWritten(d0: Db, s: nat, k: nat, i: nat, place: Place, key: string, data: string,
                     d1: Db, d2: Db, d3: Db, d4: Db)
    requires Linked(d0.links) && SizesOk(d0) && 0 < s < SLOTS && k < |d0.links.lists[0]|
    requires i == d0.links.lists[0][k] < |d0.recs|
    requires place == PlaceOf(d0.links, 0, k) && d0.links.head[s] <= |d0.recs| && d0.links.next[i] <= |d0.recs|
    requires Shaped(d0) && SiteOk(d0.recs, place) && d1 == SetPtr(d0, place, d0.links.next[i]) && Shaped(d1)
    requires d2 == SetData(d1, i, data) && Shaped(d2)
    requires d3 == SetRec(d2, i, key, d0.links.head[s]) && Shaped(d3) && SiteOk(d3.recs, Head(s))
    requires d4 == SetPtr(d3, Head(s), i + 1) && Still(d0, d4)
    ensures MoveWritten(d0, d4, 0, k, s) && d4.recs[i].key == key && d4.recs[i].data == data
  {
    hide Shaped, Linked, Offset, DatOff, Addr, PlaceOf, Moved;
    MoveOrder(d0.links, 0, k, s, i, place);
    assert d4.links == Set(Set(Set(d0.links, place, d0.links.next[i]), Next(i), d0.links.head[s]), Head(s), i + 1);
    forall j: nat | j < |d0.recs|
      ensures d4.recs[j].key == (if j == i then key else d0.recs[j].key)
      ensures d4.recs[j].data == (if j == i then data else d0.recs[j].data)
    {
      assert d4.recs == d3.recs;
    }
  }

  /** After the writes of a move the files hold the consistent state with the lists brought up to date. */
  lemma MoveFinish(db: Db, d: Db, from: nat, k: nat, to: nat, i: nat, idx: string, dat: string) returns (d': Db)
    requires Consistent(db) && from < SLOTS && k < |db.links.lists[from]| && to < SLOTS
    requires from != to && (from == 0 || to == 0) && i == db.links.lists[from][k]
    requires MoveWritten(db, d, from, k, to) && Holds(d, idx, dat) && i < |db.recs| && i < |d.recs|
    requires if to == 0 then IsBlank(d.recs[i].key) else to == ChainOf(d.recs[i].key) && d.recs[i].key !in Live(db)
    ensures Shaped(d') && Consistent(d')
    ensures Holds(d', idx, dat)
    ensures Live(d') == if to == 0 then Live(db) - {db.recs[i].key} else Live(db)[d.recs[i].key := d.recs[i].data]
  {
    Ready(db);
    MoveDone(db, d, from, k, to, i);
    d' := MoveResult(db, d, from, k, to);
    hide Moved;
    Ready(d');
  }

  /** The states of the reuse path of db_store, from the unlinking in _db_findfree on. */
  lemma ReusePlan(d0: Db, s: nat, k: nat, i: nat, place: Place, key: string, data: string)
    returns (d1: Db, d2: Db, d3: Db, d4: Db)
    requires Consistent(d0) && SizesOk(d0) && 0 < s < SLOTS && k < |d0.links.lists[0]| && i == d0.links.lists[0][k]
    requires place == PlaceOf(d0.links, 0, k) && i < |d0.recs|
    requires |key| == |d0.recs[i].key| && NoSeparator(key) && |data| == |d0.recs[i].data|
    ensures i < |d0.recs| == |d1.recs| == |d2.recs| == |d3.recs| == |d4.recs|
    ensures SiteOk(d0.recs, place) && d0.links.next[i] <= |d0.recs|
    ensures d1 == SetPtr(d0, place, d0.links.next[i]) && Shaped(d1)
    ensures Offset(d1.recs, i) == Offset(d0.recs, i) && DatOff(d1.recs, i) == DatOff(d0.recs, i)
    ensures |d1.recs[i].data| == |data|
    ensures d2 == SetData(d1, i, data) && Shaped(d2) && d2.recs[i].data == data && |d2.recs[i].key| == |key|
    ensures Offset(d2.recs, i) == Offset(d0.recs, i) && DatOff(d2.recs, i) == DatOff(d0.recs, i)
    ensures d0.links.head[s] <= |d0.recs|
    ensures Addr(d2.recs, d0.links.head[s]) == Addr(d0.recs, d0.links.head[s]) <= PTR_MAX
    ensures d3 == SetRec(d2, i, key, d0.links.head[s]) && Shaped(d3)
    ensures Addr(d3.recs, i + 1) == Offset(d0.recs, i) <= PTR_MAX
    ensures d4 == SetPtr(d3, Head(s), i + 1) && Shaped(d4)
    ensures MoveWritten(d0, d4, 0, k, s) && d4.recs[i].key == key && d4.recs[i].data == data
  {
    hide Shaped, Linked, Offset, DatOff, PlaceOf, Addr, Consistent, SetPtr, SetRec, Still, MoveWritten, NoSeparator;
    Ready(d0);
    Walk(d0, 0, k);
    RecFits(d0, i);
    PtrFits(d0, Next(i));
    PtrFits(d0, Head(s));
    d1 := SetPtr(d0, place, d0.links.next[i]);
    StillPtr(d0, place, d0.links.next[i]);
    StillShaped(d0, d1);
    SetPtrTexts(d0, place, d0.links.next[i], i);
    d2 := SetData(d1, i, data);
    StillData(d1, i, data);
    StillTrans(d0, d1, d2);
    StillShaped(d0, d2);
    StillAddr(d0, d2, d0.links.head[s]);
    d3 := SetRec(d2, i, key, d0.links.head[s]);
    StillRec(d2, i, key, d0.links.head[s]);
    StillTrans(d0, d2, d3);
    StillShaped(d0, d3);
    StillAddr(d0, d3, i + 1);
    AddrOf(d0.recs, i);
    d4 := SetPtr(d3, Head(s), i + 1);
    StillPtr(d3, Head(s), i + 1);
    StillTrans(d0, d3, d4);
    StillShaped(d0, d4);
    ReuseWritten(d0, s, k, i, place, key, data, d1, d2, d3, d4);
  }

  lemma SetPtrTexts(db: Db, p: Place, w: nat, i: nat)
    requires Shaped(db) && SiteOk(db.recs, p) && w <= |db.recs| && i < |db.recs|
    ensures i < |SetPtr(db, p, w).recs|
    ensures SetPtr(db, p, w).recs[i].key == db.recs[i].key && SetPtr(db, p, w).recs[i].data == db.recs[i].data
  {
    hide Shaped, Addr;
  }

  lemma AppendFinish(db: Db, d: Db, e: Db, s: nat, key: string, data: string, idx: string, dat: string) returns (e': Db)
    requires Consistent(db) && s == ChainOf(key) && SizesOk(db) && key !in Live(db) && db.links.head[s] <= |db.recs|
    requires d == Append(db, key, data, db.links.head[s]) && Shaped(d) && |d.recs| == |db.recs| + 1
    requires forall j: nat :: j <= |db.recs| ==> Offset(d.recs, j) == Offset(db.recs, j)
    requires Offset(d.recs, |db.recs|) <= PTR_MAX && SiteOk(d.recs, Head(s))
    requires e == SetPtr(d, Head(s), |db.recs| + 1) && Shaped(e) && Holds(e, idx, dat)
    ensures Shaped(e') && Consistent(e') && Holds(e', idx, dat) && Live(e') == Live(db)[key := data]
  {
    Ready(db);
    assert HeadStored(db, s);
    AppendDone(db, d, e, s, key, data);
    e' := e.(links := Push(d.links, s, |db.recs|));
    Ready(e');
  }

  // ---------- the sequential scan ----------

  /** What db_nextrec returns from record i on: the records whose key is not blank, in file order. */
  function Scan(recs: seq<Rec>, i: nat): seq<(string, string)>
    requires i <= |recs|
    decreases |recs| - i
  {
    if i == |recs| then []
    else if IsBlank(recs[i].key) then Scan(recs, i + 1)
    else [(recs[i].key, recs[i].data)] + Scan(recs, i + 1)
  }

  /** Record j is what the scan returns at position n. */
  lemma {:induction false} ScanFrom(recs: seq<Rec>, i: nat, n: nat) returns (j: nat)
    requires i <= |recs| && n < |Scan(recs, i)|
    ensures i <= j < |recs| && !IsBlank(recs[j].key) && Scan(recs, i)[n] == (recs[j].key, recs[j].data)
    decreases |recs| - i
  {
    if IsBlank(recs[i].key) {
      j := ScanFrom(recs, i + 1, n);
    } else if n == 0 {
      j := i;
    } else {
      j := ScanFrom(recs, i + 1, n - 1);
    }
  }

  lemma {:induction false} ScanMeets(recs: seq<Rec>, i: nat, j: nat)
    requires i <= j < |recs| && !IsBlank(recs[j].key)
    ensures (recs[j].key, recs[j].data) in Scan(recs, i)
    decreases |recs| - i
  {
    if i < j {
      ScanMeets(recs, i + 1, j);
    }
  }

  ghost predicate NonBlankLive(db: Db, j: nat) {
    j < |db.recs| && !IsBlank(db.recs[j].key) ==> IsLive(db, j)
  }

  lemma {:induction false} ScanOnce(db: Db, i: nat, m: nat, n: nat)
    requires KeysDistinct(db) && (forall j: nat :: NonBlankLive(db, j))
    requires i <= |db.recs| && m < n < |Scan(db.recs, i)|
    ensures Scan(db.recs, i)[m].0 != Scan(db.recs, i)[n].0
    decreases |db.recs| - i
  {
    if IsBlank(db.recs[i].key) {
      ScanOnce(db, i + 1, m, n);
    } else if m > 0 {
      ScanOnce(db, i + 1, m - 1, n - 1);
    } else {
      var j := ScanFrom(db.recs, i + 1, n - 1);
      assert NonBlankLive(db, i) && NonBlankLive(db, j);
    }
  }

  /** A full scan returns each live key that is not blank exactly once, with its data, and nothing else. */
  lemma ScanIsLive(db: Db)
    requires Consistent(db)
    ensures forall p <- Scan(db.recs, 0) :: p.0 in Live(db) && Live(db)[p.0] == p.1 && !IsBlank(p.0)
    ensures forall key <- Live(db) :: !IsBlank(key) ==> (key, Live(db)[key]) in Scan(db.recs, 0)
    ensures forall m, n :: 0 <= m < n < |Scan(db.recs, 0)| ==> Scan(db.recs, 0)[m].0 != Scan(db.recs, 0)[n].0
  {
    hide LayoutOk, HeadStored, NextStored, Linked, Offset, Hash, IsBlank;
    forall j: nat ensures NonBlankLive(db, j) {
      if j < |db.recs| {
        assert Filed(db, j);
      }
    }
    forall p | p in Scan(db.recs, 0) ensures p.0 in Live(db) && Live(db)[p.0] == p.1 && !IsBlank(p.0) {
      var n :| 0 <= n < |Scan(db.recs, 0)| && Scan(db.recs, 0)[n] == p;
      var j := ScanFrom(db.recs, 0, n);
      assert NonBlankLive(db, j);
      LiveAt(db, j);
    }
    forall key | key in Live(db) && !IsBlank(key) ensures (key, Live(db)[key]) in Scan(db.recs, 0) {
      var j: nat :| IsLive(db, j) && db.recs[j].key == key;
      LiveAt(db, j);
      ScanMeets(db.recs, 0, j);
    }
    forall m, n | 0 <= m < n < |Scan(db.recs, 0)| ensures Scan(db.recs, 0)[m].0 != Scan(db.recs, 0)[n].0 {
      ScanOnce(db, 0, m, n);
    }
  }

  /** The scan is the whole map exactly when no live key is all blanks. */
  lemma ScanExact(db: Db)
    requires Consistent(db)
    ensures (set p <- Scan(db.recs, 0)) == Live(db).Items <==> forall key <- Live(db) :: !IsBlank(key)
  {
    hide *;
    Ready(db);
    ScanIsLive(db);
    PairsExact(Scan(db.recs, 0), Live(db));
  }

  lemma PairsExact(ps: seq<(string, string)>, m: map<string, string>)
    requires forall p <- ps :: p.0 in m && m[p.0] == p.1 && !IsBlank(p.0)
    requires forall key <- m :: !IsBlank(key) ==> (key, m[key]) in ps
    ensures (set p <- ps) == m.Items <==> forall key <- m :: !IsBlank(key)
  {
    hide *;
    if forall key <- m :: !IsBlank(key) {
      forall p | p in m.Items ensures p in ps {
        assert p == (p.0, m[p.0]);
      }
    } else {
      var key :| key in m && IsBlank(key);
      assert (key, m[key]) in m.Items && (key, m[key]) !in ps;
    }
  }

  // ---------- a new database ----------

  /** The state db_open creates: 138 null pointers and no record. */
  ghost function Fresh(): Db {
    Db(seq(SLOTS, i => 0), [], Threads(seq(SLOTS, i => 0), [], seq(SLOTS, i => []), []))
  }

  lemma FreshOk()
    ensures Shaped(Fresh()) && Consistent(Fresh()) && Live(Fresh()) == map[]
    ensures Holds(Fresh(), Cat(seq(SLOTS, i => Decimal.Field(PTR_SZ, 0))) + "\n", "")
    ensures Offset(Fresh().recs, 0) == RECORDS == |Cat(seq(SLOTS, i => Decimal.Field(PTR_SZ, 0))) + "\n"|
  {
    var d := Fresh();
    assert PtrTexts(d.ptrs) == seq(SLOTS, i => Decimal.Field(PTR_SZ, 0));
    assert Image(d) == Header(d.ptrs);
    IdxSize(d.ptrs, d.recs);
    assert HeadsOk(d.links) && Entries(d.links) && Acyclic(d.links) && Covered(d.links);
  }
}
