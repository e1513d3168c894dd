/**
 The database library of refer_code/apue.2e/db/db.c, working on the bytes of its index and
 data files.  Every operation is proved to act on the map of live keys as a plain map would.
 Locking has no effect on a single process; the lock protocol is module DbLocks.
 An err_dump or err_quit that cannot be reached is written `assert false`.

 The fields idx and dat are the files, pos is the index file's offset, and the others are
 those of struct DB that the operations hand to one another: the record last read, its
 offsets and lengths, and the chain and pointer it was reached by.
 */
module Database {
  import opened Basics
  import opened Decimal
  import opened Links
  import opened Texts
  import opened DbFormat
  import opened DbState

  datatype Whence = SeekSet | SeekEnd

  /** How a call ends: with a return code, or with the process dead in err_dump or err_quit. */
  datatype Outcome = Returned(rc: int) | Dumped

  const DB_INSERT := 1
  const DB_REPLACE := 2
  const DB_STORE := 3

  // ---------- what a plain map would do ----------

  predicate FlagOk(flag: int) {
    flag == DB_INSERT || flag == DB_REPLACE || flag == DB_STORE
  }

  function SpecStoreMap(m: map<string, string>, key: string, data: string, flag: int): map<string, string> {
    if !FlagOk(flag) || (if key in m then flag == DB_INSERT else flag == DB_REPLACE) then m else m[key := data]
  }

  function SpecStoreCode(m: map<string, string>, key: string, flag: int): int {
    if !FlagOk(flag) then -1
    else if key in m && flag == DB_INSERT then 1
    else if key !in m && flag == DB_REPLACE then -1
    else 0
  }

  datatype Call = StoreCall(key: string, data: string, flag: int) | DeleteCall(key: string) | FetchCall(key: string)

  datatype Reply = Code(rc: int) | Data(r: Option<string>) | Died

  function SpecNext(m: map<string, string>, c: Call): map<string, string> {
    match c
    case StoreCall(key, data, flag) => SpecStoreMap(m, key, data, flag)
    case DeleteCall(key) => m - {key}
    case FetchCall(key) => m
  }

  function SpecReply(m: map<string, string>, c: Call): Reply {
    match c
    case StoreCall(key, data, flag) => Code(SpecStoreCode(m, key, flag))
    case DeleteCall(key) => Code(if key in m then 0 else -1)
    case FetchCall(key) => Data(if key in m then Some(m[key]) else None)
  }

  function SpecFinal(m: map<string, string>, calls: seq<Call>): map<string, string> {
    if calls == [] then m else SpecNext(SpecFinal(m, calls[..|calls| - 1]), calls[|calls| - 1])
  }

  function SpecRun(m: map<string, string>, calls: seq<Call>): (replies: seq<Reply>)
    ensures |replies| == |calls|
  {
    if calls == [] then [] else
    SpecRun(m, calls[..|calls| - 1]) + [SpecReply(SpecFinal(m, calls[..|calls| - 1]), calls[|calls| - 1])]
  }

  lemma {:induction false} SpecRunAt(m: map<string, string>, calls: seq<Call>, n: nat)
    requires n < |calls|
    ensures SpecRun(m, calls)[n] == SpecReply(SpecFinal(m, calls[..n]), calls[n])
  {
    if n < |calls| - 1 {
      SpecRunAt(m, calls[..|calls| - 1], n);
      assert calls[..|calls| - 1][..n] == calls[..n];
    }
  }

  // ---------- when db_store dies ----------

  /** Position k of the free list does not have these sizes. */
  ghost predicate WrongSize(db: Db, k: nat, keylen: nat, datlen: nat) {
    && |db.links.lists| > 0 && k < |db.links.lists[0]| && db.links.lists[0][k] < |db.recs|
    && !(|db.recs[db.links.lists[0][k]].key| == keylen && db.recs[db.links.lists[0][k]].DatLen() == datlen)
  }

  ghost predicate NoneFree(db: Db, keylen: nat, datlen: nat) {
    |db.links.lists| > 0 && forall k: nat :: k < |db.links.lists[0]| ==> WrongSize(db, k, keylen, datlen)
  }

  /** The store has to add a record at the ends of the files. */
  ghost predicate NeedsAppend(db: Db, key: string, data: string, flag: int)
    requires KeysDistinct(db)
  {
    if key in Live(db) then flag != DB_INSERT && |data| != |Live(db)[key]|
    else flag != DB_REPLACE && NoneFree(db, |key|, |data| + 1)
  }

  /** A record for this key and data can be added to files of these sizes. */
  predicate AppendFits(idxsize: nat, datsize: nat, key: string, data: string) {
    IDXLEN_MIN <= |Body(key, datsize, |data| + 1)| <= IDXLEN_MAX && idxsize <= PTR_MAX
  }

  predicate DataOk(data: string) {
    DATLEN_MIN <= |data| + 1 <= DATLEN_MAX
  }

  ghost predicate StoreDies(db: Db, idxsize: nat, datsize: nat, key: string, data: string, flag: int)
    requires KeysDistinct(db)
  {
    FlagOk(flag) && (!DataOk(data) || (NeedsAppend(db, key, data, flag) && !AppendFits(idxsize, datsize, key, data)))
  }

  /** The most a record adds to the index file. */
  const IDX_GROWTH := PTR_SZ + IDXLEN_SZ + IDXLEN_MAX

  /** A key with which a record is never too long: beside it come three separators and at most ten digits. */
  const KEY_MAX := IDXLEN_MAX - 13

  /** As many records as a new index file can always take. */
  const SAFE_CALLS := (PTR_MAX - RECORDS) / IDX_GROWTH

  /** A key of such a length and data of a legal length fit as long as the files are not full. */
  lemma RoomFits(idxsize: nat, datsize: nat, key: string, data: string)
    requires idxsize <= PTR_MAX && datsize <= PTR_MAX && 1 <= |key| <= KEY_MAX && DataOk(data)
    ensures AppendFits(idxsize, datsize, key, data)
  {
    DigitsFit(datsize, 6);
    DigitsFit(|data| + 1, 4);
    assert Pow10(6) == 1000000 && Pow10(4) == 10000 by {
      assert Pow10(3) == 1000;
    }
  }

  /** What the state before a call has to do with how the call ends. */
  datatype Snapshot = Snapshot(db: Db, idxsize: nat, datsize: nat)

  ghost predicate Dies(s: Snapshot, c: Call)
    requires KeysDistinct(s.db)
  {
    c.StoreCall? && StoreDies(s.db, s.idxsize, s.datsize, c.key, c.data, c.flag)
  }

  /** A store that names an existing flag has data and a key of lengths that always fit. */
  predicate Fitting(c: Call) {
    c.StoreCall? && FlagOk(c.flag) ==> DataOk(c.data) && 1 <= |c.key| <= KEY_MAX
  }

  /** However the calls make them grow, the files stay within what a pointer can address. */
  predicate Roomy(idxsize: nat, datsize: nat, n: nat) {
    idxsize + n * IDX_GROWTH <= PTR_MAX && datsize + n * DATLEN_MAX <= PTR_MAX
  }

  class Database {
    /** The two files. */
    var idx: string
    var dat: string

    /** The file offset of the index descriptor. */
    var pos: nat

    /** The DB structure: what the last record read or written is. */
    var idxbuf: string
    var idxoff: nat
    var idxlen: nat
    var datoff: nat
    var datlen: nat
    var ptrval: nat
    var ptroff: nat
    var chainoff: nat

    ghost var db: Db

    /** The record the index descriptor is in front of during a scan. */
    ghost var cursor: nat

    /** The files hold the pointers and records of db. */
    ghost predicate Stored()
      reads this
    {
      Shaped(db) && Holds(db, idx, dat)
    }

    ghost predicate Valid()
      reads this
    {
      Stored() && Consistent(db)
    }

    ghost function Contents(): map<string, string>
      reads this
      requires Valid()
    {
      Live(db)
    }

    /** The structure describes record i. */
    ghost predicate AtRec(i: nat)
      reads this
    {
      && i < |db.recs|
      && idxoff == Offset(db.recs, i) && idxbuf == db.recs[i].key && ptrval == db.recs[i].next
      && datoff == DatOff(db.recs, i) && datlen == db.recs[i].DatLen()
    }

    /** db_open of a new database. */
    constructor ()
      ensures Valid() && Contents() == map[]
      ensures Scanning() && Pending() == [] && |idx| == RECORDS && dat == ""
    {
      var hash := "";
      for i := 0 to SLOTS
        invariant hash == Cat(seq(i, j => Field(PTR_SZ, 0)))
      {
        assert seq(i + 1, j => Field(PTR_SZ, 0))[..i] == seq(i, j => Field(PTR_SZ, 0));
        hash := hash + Field(PTR_SZ, 0);
      }
      idx, dat, pos := hash + "\n", "", RECORDS;
      idxbuf, idxoff, idxlen, datoff, datlen, ptrval, ptroff, chainoff := "", RECORDS, 0, 0, 0, 0, 0, 0;
      db, cursor := Fresh(), 0;
      FreshOk();
    }

    method ReadPtr(offset: nat, ghost p: Place) returns (v: int)
      requires Stored() && SiteOk(db.recs, p) && offset == PlaceOffset(db, p)
      modifies this`pos
      ensures PlaceOk(db.links, p) && Get(db.links, p) <= |db.recs|
      ensures v == Addr(db.recs, Get(db.links, p))
    {
      PtrRead(db, idx, dat, p, offset);
      hide Shaped, Holds, SiteOffset, Atol, Addr;
      v := Atol(idx[offset..offset + PTR_SZ]);
      pos := offset + PTR_SZ;
    }

    method WritePtr(offset: nat, v: nat, ghost p: Place, ghost w: nat) returns (ok: bool)
      requires Stored() && SiteOk(db.recs, p) && offset == PlaceOffset(db, p)
      requires w <= |db.recs| && v == Addr(db.recs, w)
      modifies this`idx, this`pos, this`db
      ensures ok <==> v <= PTR_MAX
      ensures !ok ==> idx == old(idx) && db == old(db)
      ensures ok ==> Stored() && db == SetPtr(old(db), p, w)
      ensures |idx| == |old(idx)|
    {
      hide Shaped, Holds, SiteOffset, Field, Addr, Splice, SetPtr;
      if v > PTR_MAX {
        return false;
      }
      PtrWritten(db, idx, dat, p, w, offset, Field(PTR_SZ, v));
      idx := Splice(idx, offset, Field(PTR_SZ, v));
      pos := offset + PTR_SZ;
      db := SetPtr(db, p, w);
      return true;
    }

    /** Offset 0 means the current position, where the end of the file gives -1. */
    method ReadIdx(offset: nat, ghost i: nat) returns (r: int)
      requires Stored() && i <= |db.recs|
      requires if offset == 0 then pos == Offset(db.recs, i) else i < |db.recs| && offset == Offset(db.recs, i)
      modifies this`pos, this`idxbuf, this`idxoff, this`idxlen, this`datoff, this`datlen, this`ptrval
      ensures i == |db.recs| ==> r == -1 && pos == old(pos)
      ensures i < |db.recs| ==> AtRec(i) && r == ptrval && pos == Offset(db.recs, i + 1)
    {
      hide Shaped, Holds, Body, ParseBody, Atol, Offset, DatOff;
      idxoff := if offset == 0 then pos else offset;
      IdxEnd(db, idx, dat, i);
      if idxoff == |idx| {
        return -1;
      }
      IdxRead(db, idx, dat, i, idxoff, |Body(db.recs[i].key, DatOff(db.recs, i), db.recs[i].DatLen())|);
      var start := idxoff + PTR_SZ + IDXLEN_SZ;
      ptrval := Atol(idx[idxoff..idxoff + PTR_SZ]);
      var len := Atol(idx[idxoff + PTR_SZ..start]);
      if len < IDXLEN_MIN || len > IDXLEN_MAX {
        assert false;
      }
      idxlen := len;
      var parsed := ParseBody(idx[start..start + idxlen]);
      if parsed.None? {
        assert false;
      }
      idxbuf, datoff, datlen := parsed.value.key, parsed.value.datoff, parsed.value.datlen;
      pos := start + idxlen;
      r := ptrval;
    }

    method ReadDat(ghost i: nat) returns (s: string)
      requires Stored() && i < |db.recs| && datoff == DatOff(db.recs, i) && datlen == db.recs[i].DatLen()
      ensures s == db.recs[i].data
    {
      hide Shaped, Holds, DatOff;
      DatRead(db, idx, dat, i, datoff, datlen);
      var buf := dat[datoff..datoff + datlen];
      if buf[datlen - 1] != '\n' {
        assert false;
      }
      s := buf[..datlen - 1];
    }

    method WriteDat(data: string, offset: nat, whence: Whence, ghost i: nat)
      requires Stored()
      requires whence == SeekSet ==>
                 i < |db.recs| && offset == DatOff(db.recs, i) && |data| == |db.recs[i].data|
      modifies this`dat, this`datoff, this`datlen, this`db
      ensures datlen == |data| + 1
      ensures whence == SeekSet ==>
                Stored() && db == SetData(old(db), i, data) && datoff == offset && |dat| == |old(dat)|
      ensures whence == SeekEnd ==> db == old(db) && dat == old(dat) + data + "\n" && datoff == |old(dat)|
    {
      hide Shaped, Holds, DatOff, Splice;
      datlen := |data| + 1;
      if whence == SeekEnd {
        datoff := |dat|;
        dat := dat + data + "\n";
      } else {
        DatWritten(db, idx, dat, i, data, offset);
        datoff := offset;
        dat := Splice(dat, offset, data + "\n");
        db := SetData(db, i, data);
      }
    }

    /** Rewrites record i, or appends a record for the data that WriteDat has just appended. */
    method WriteIdx(key: string, offset: nat, whence: Whence, ptr: nat,
                    ghost i: nat, ghost w: nat, ghost data: string) returns (ok: bool)
      requires Shaped(db) && w <= |db.recs| && ptr == Addr(db.recs, w) <= PTR_MAX && NoSeparator(key)
      requires whence == SeekSet ==>
                 && Holds(db, idx, dat) && i < |db.recs| && offset == Offset(db.recs, i)
                 && |key| == |db.recs[i].key| && datoff == DatOff(db.recs, i) && datlen == db.recs[i].DatLen()
      requires whence == SeekEnd ==>
                 && DATLEN_MIN <= datlen == |data| + 1 <= DATLEN_MAX && datoff + datlen == |dat|
                 && Holds(db, idx, dat[..datoff]) && dat[datoff..] == data + "\n"
      modifies this`idx, this`pos, this`idxbuf, this`idxoff, this`ptrval, this`db
      ensures whence == SeekSet ==>
                ok && Stored() && db == SetRec(old(db), i, key, w) && idxoff == offset && |idx| == |old(idx)|
      ensures whence == SeekEnd ==> (ok <==> IDXLEN_MIN <= |Body(key, datoff, datlen)| <= IDXLEN_MAX)
      ensures whence == SeekEnd && ok ==>
                && Stored() && db == Append(old(db), key, data, w) && idxoff == |old(idx)|
                && Offset(db.recs, |old(db).recs|) == idxoff
                && forall j: nat :: j <= |old(db).recs| ==> Offset(db.recs, j) == Offset(old(db).recs, j)
      ensures !ok ==> idx == old(idx) && db == old(db)
      ensures old(idx) <= idx || whence == SeekSet
      ensures whence == SeekEnd && ok ==> |idx| <= |old(idx)| + IDX_GROWTH
    {
      hide Shaped, Holds, DatOff, Offset, Splice, Body, Field, Addr, NoSeparator, SetRec, Append;
      ptrval := ptr;
      idxbuf := Body(key, datoff, datlen);
      var len := |idxbuf|;
      var text := Field(PTR_SZ, ptr) + (Field(IDXLEN_SZ, len) + idxbuf);
      if whence == SeekEnd {
        if len < IDXLEN_MIN || len > IDXLEN_MAX {
          return false;
        }
        BothAppended(db, idx, dat[..datoff], key, data, w, idxbuf, text);
        PtrFieldSize(ptr);
        LenFieldSize(len);
        Rejoin(dat, datoff, data);
        idxoff := |idx|;
        idx := idx + text;
        db := Append(db, key, data, w);
      } else {
        IdxWritten(db, idx, dat, i, key, w, offset, idxbuf, text);
        if len < IDXLEN_MIN || len > IDXLEN_MAX {
          assert false;
        }
        idxoff := offset;
        idx := Splice(idx, offset, text);
        db := SetRec(db, i, key, w);
      }
      pos := idxoff + |text|;
      return true;
    }

    method HashOf(key: string) returns (h: nat)
      ensures h == Hash(key)
    {
      var hval := 0;
      for i := 1 to |key| + 1
        invariant hval == HashSum(key[..i - 1])
      {
        assert key[..i][..i - 1] == key[..i - 1];
        hval := (hval + SignedChar(key[i - 1]) * i) % ULONG;
      }
      assert key[..|key|] == key;
      h := hval % NHASH;
    }

    /** Position k of list s is where the structure stands, with the pointer to it at ptroff. */
    ghost predicate StandsAt(s: nat, k: nat)
      reads this
    {
      && s < |db.links.lists| && k < |db.links.lists[s]| && AtRec(db.links.lists[s][k])
      && SiteOk(db.recs, PlaceOf(db.links, s, k)) && ptroff == PlaceOffset(db, PlaceOf(db.links, s, k))
    }

    method FindAndLock(key: string) returns (rc: int, ghost k: nat)
      requires Valid()
      modifies this`pos, this`idxbuf, this`idxoff, this`idxlen, this`datoff, this`datlen, this`ptrval,
               this`ptroff, this`chainoff
      ensures chainoff == PTR_SZ * ChainOf(key)
      ensures rc == 0 || rc == -1
      ensures rc == 0 ==> StandsAt(ChainOf(key), k) && idxbuf == key
      ensures rc == -1 ==> key !in Contents()
    {
      var h := HashOf(key);
      hide Shaped, Holds, Hash, Linked, Offset, DatOff, PlaceOf, To, Addr, Consistent, Live, OtherKey;
      chainoff := h * PTR_SZ + PTR_SZ;
      ptroff := chainoff;
      ghost var s := ChainOf(key);
      k := 0;
      Ready(db);
      Walk(db, s, 0);
      FrontPlace(db, s);
      var offset := ReadPtr(ptroff, Head(s));
      while offset != 0
        invariant chainoff == PTR_SZ * s
        invariant k <= |db.links.lists[s]| && To(db.links.lists[s], k) <= |db.recs|
        invariant offset == Addr(db.recs, To(db.links.lists[s], k))
        invariant SiteOk(db.recs, PlaceOf(db.links, s, k)) && ptroff == PlaceOffset(db, PlaceOf(db.links, s, k))
        invariant forall j: nat :: j < k ==> OtherKey(db, s, j, key)
        decreases |db.links.lists[s]| - k
      {
        Walk(db, s, k);
        ghost var i := db.links.lists[s][k];
        var nextoffset := ReadIdx(offset, i);
        if idxbuf == key {
          return 0, k;
        }
        Differs(db, s, k, key);
        ptroff := offset;
        offset := nextoffset;
        k := k + 1;
        Walk(db, s, k);
      }
      Walk(db, s, k);
      if key in Live(db) {
        var j := OnChain(db, key);
        assert false;
      }
      return -1, k;
    }

    method BlankOut(n: nat) returns (s: string)
      ensures s == Blanks(n)
    {
      s := "";
      while |s| < n
        invariant |s| <= n && s == Blanks(|s|)
      {
        s := s + " ";
      }
    }

    /** Blanks the record the structure stands at and moves it from its chain to the free list. */
    method DoDelete(ghost s: nat, ghost k: nat)
      requires Valid() && 0 < s < SLOTS && StandsAt(s, k)
      modifies this`idx, this`dat, this`pos, this`idxbuf, this`idxoff, this`datoff, this`datlen, this`ptrval, this`db
      ensures Valid()
      ensures Contents() == old(Contents()) - {old(idxbuf)}
      ensures |idx| == |old(idx)| && |dat| == |old(dat)|
    {
      hide Shaped, Holds, Linked, Offset, DatOff, PlaceOf, Addr, Consistent, Live, SetPtr, SetRec, SetData, Still,
           MoveWritten, IsBlank, KeysDistinct, Body, NoSeparator;
      var datblank := BlankOut(datlen - 1);
      var keyblank := BlankOut(|idxbuf|);
      ghost var d0 := db;
      ghost var i := d0.links.lists[s][k];
      ghost var place := PlaceOf(d0.links, s, k);
      Ready(d0);
      ghost var d1, d2, d3, d4 := DeletePlan(d0, s, k, i, place);
      WriteDat(datblank, datoff, SeekSet, i);
      var freeptr := ReadPtr(0, Head(0));
      var saveptr := ptrval;
      var wrote := WriteIdx(keyblank, idxoff, SeekSet, freeptr, i, d1.links.head[0], "");
      wrote := WritePtr(0, idxoff, Head(0), i + 1);
      wrote := WritePtr(ptroff, saveptr, place, d0.links.next[i]);
      db := MoveFinish(d0, d4, s, k, 0, i, idx, dat);
    }

    /** Looks for a free record of exactly these sizes and unlinks it. */
    method FindFree(keylen: nat, size: nat) returns (rc: int, ghost k: nat)
      requires Valid()
      modifies this`idx, this`pos, this`idxbuf, this`idxoff, this`idxlen, this`datoff, this`datlen, this`ptrval, this`db
      ensures rc == 0 || rc == -1
      ensures |idx| == |old(idx)|
      ensures rc == -1 ==> Valid() && idx == old(idx) && db == old(db) && NoneFree(db, keylen, size)
      ensures rc == 0 ==>
                && Stored() && |old(db).links.lists| > 0 && k < |old(db).links.lists[0]|
                && var (d0, i) := (old(db), old(db).links.lists[0][k]);
                && i < |d0.recs| && |d0.recs[i].key| == keylen && d0.recs[i].DatLen() == size
                && idxoff == Offset(d0.recs, i) && datoff == DatOff(d0.recs, i)
                && Shaped(d0) && SiteOk(d0.recs, PlaceOf(d0.links, 0, k)) && i < |d0.links.next|
                && d0.links.next[i] <= |d0.recs| && db == SetPtr(d0, PlaceOf(d0.links, 0, k), d0.links.next[i])
                && !NoneFree(d0, keylen, size)
    {
      hide Shaped, Holds, Linked, Offset, DatOff, PlaceOf, To, Addr, Consistent, Live, SetPtr, WrongSize, KeysDistinct;
      var saveoffset := 0;
      k := 0;
      Ready(db);
      Walk(db, 0, 0);
      FrontPlace(db, 0);
      var offset := ReadPtr(saveoffset, Head(0));
      while offset != 0
        invariant Valid() && idx == old(idx) && dat == old(dat) && db == old(db)
        invariant k <= |db.links.lists[0]| && To(db.links.lists[0], k) <= |db.recs|
        invariant offset == Addr(db.recs, To(db.links.lists[0], k))
        invariant SiteOk(db.recs, PlaceOf(db.links, 0, k)) && saveoffset == PlaceOffset(db, PlaceOf(db.links, 0, k))
        invariant forall j: nat :: j < k ==> WrongSize(db, j, keylen, size)
        decreases |db.links.lists[0]| - k
      {
        Walk(db, 0, k);
        ghost var i := db.links.lists[0][k];
        var nextoffset := ReadIdx(offset, i);
        if |idxbuf| == keylen && datlen == size {
          PtrFits(db, Next(i));
          RightSize(db, k, keylen, size);
          var wrote := WritePtr(saveoffset, ptrval, PlaceOf(db.links, 0, k), db.links.next[i]);
          return 0, k;
        }
        Sizes(db, k, keylen, size);
        saveoffset := offset;
        offset := nextoffset;
        k := k + 1;
        Walk(db, 0, k);
      }
      Walk(db, 0, k);
      return -1, k;
    }

    /** What a dead process leaves: consistent lists in front of both files, perhaps with litter behind them. */
    ghost predicate Damaged()
      reads this
    {
      Consistent(db) && Image(db) <= idx && DatImage(db.recs) <= dat
    }

    /** The append path of db_store: the data, the index record, then the chain's slot. */
    method AppendRecord(key: string, data: string, ptr: nat) returns (ok: bool)
      requires Valid() && NoSeparator(key) && DataOk(data) && key !in Contents()
      requires chainoff == PTR_SZ * ChainOf(key) && SizesOk(db) && db.links.head[ChainOf(key)] <= |db.recs|
      requires ptr == Addr(db.recs, db.links.head[ChainOf(key)])
      modifies this`idx, this`dat, this`pos, this`idxbuf, this`idxoff, this`datoff, this`datlen, this`ptrval, this`db
      ensures ok <==> AppendFits(|old(idx)|, |old(dat)|, key, data)
      ensures ok ==> Valid() && Contents() == old(Contents())[key := data]
      ensures ok ==> |idx| <= |old(idx)| + IDX_GROWTH && |dat| == |old(dat)| + |data| + 1
      ensures !ok ==> Damaged() && db == old(db)
    {
      hide Shaped, Holds, Linked, Offset, DatOff, Addr, Consistent, Live, SetPtr, Append, Body, NoSeparator;
      hide KeysDistinct,
           Hash, Push, Image, DatImage;
      ghost var (d0, s) := (db, ChainOf(key));
      ghost var (idx0, dat0) := (idx, dat);
      PtrFits(d0, Head(s));
      Prefixes(d0, idx0, dat0, "", data + "\n");
      WriteDat(data, 0, SeekEnd, 0);
      Tail(dat0, data, dat);
      ok := WriteIdx(key, 0, SeekEnd, ptr, 0, d0.links.head[s], data);
      if !ok {
        return;
      }
      ghost var d := db;
      AppendSize(d0, key, data, d0.links.head[s]);
      AddrNew(d0, d, idxoff);
      ok := WritePtr(chainoff, idxoff, Head(s), |d0.recs| + 1);
      if ok {
        db := AppendFinish(d0, d, db, s, key, data, idx, dat);
      } else {
        db := d0;
      }
    }

    /** The reuse path of db_store, after FindFree has unlinked position k of the free list of d0. */
    method ReuseRecord(key: string, data: string, ptr: nat, ghost d0: Db, ghost k: nat)
      requires Stored() && Consistent(d0) && SizesOk(d0) && KeysDistinct(d0) && k < |d0.links.lists[0]|
      requires NoSeparator(key) && key !in Live(d0) && chainoff == PTR_SZ * ChainOf(key)
      requires var i := d0.links.lists[0][k];
               && i < |d0.recs| && |d0.recs[i].key| == |key| && d0.recs[i].DatLen() == |data| + 1
               && idxoff == Offset(d0.recs, i) && datoff == DatOff(d0.recs, i)
               && Shaped(d0) && SiteOk(d0.recs, PlaceOf(d0.links, 0, k)) && d0.links.next[i] <= |d0.recs|
               && db == SetPtr(d0, PlaceOf(d0.links, 0, k), d0.links.next[i])
      requires d0.links.head[ChainOf(key)] <= |d0.recs| && ptr == Addr(d0.recs, d0.links.head[ChainOf(key)])
      modifies this`idx, this`dat, this`pos, this`idxbuf, this`idxoff, this`datoff, this`datlen, this`ptrval, this`db
      ensures Valid() && Contents() == Live(d0)[key := data]
      ensures |idx| == |old(idx)| && |dat| == |old(dat)|
    {
      hide Shaped, Holds, Linked, Offset, DatOff, PlaceOf, Addr, Consistent, Live, SetPtr, SetRec, SetData,
           MoveWritten, IsBlank, KeysDistinct, Body, NoSeparator, Hash;
      ghost var (i, s) := (d0.links.lists[0][k], ChainOf(key));
      ghost var d1, d2, d3, d4 := ReusePlan(d0, s, k, i, PlaceOf(d0.links, 0, k), key, data);
      WriteDat(data, datoff, SeekSet, i);
      var wrote := WriteIdx(key, idxoff, SeekSet, ptr, i, d0.links.head[s], "");
      wrote := WritePtr(chainoff, idxoff, Head(s), i + 1);
      db := MoveFinish(d0, d4, 0, k, s, i, idx, dat);
    }

    /** db_store acts as a map with insert, replace and store, or dies exactly when StoreDies says. */
    method Store(key: string, data: string, flag: int) returns (out: Outcome)
      requires Valid() && NoSeparator(key)
      modifies this
      ensures out == Dumped <==> StoreDies(old(db), |old(idx)|, |old(dat)|, key, data, flag)
      ensures out.Returned? ==> Valid() && Contents() == SpecStoreMap(old(Contents()), key, data, flag)
      ensures out.Returned? ==> out.rc == SpecStoreCode(old(Contents()), key, flag)
      ensures out.Returned? ==> |idx| <= |old(idx)| + IDX_GROWTH && |dat| <= |old(dat)| + DATLEN_MAX
      ensures out == Dumped ==>
                Damaged() && Live(db) == if DataOk(data) then old(Contents()) - {key} else old(Contents())
    {
      hide Shaped, Holds, Linked, Offset, DatOff, PlaceOf, Addr, Consistent, Live, SetPtr, SetData,
           KeysDistinct, Body, NoSeparator, Hash, Image, DatImage, NoneFree;
      ghost var d0 := db;
      Ready(d0);
      Intact(d0, idx, dat);
      if !FlagOk(flag) {
        return Returned(-1);
      }
      var size := |data| + 1;
      if size < DATLEN_MIN || size > DATLEN_MAX {
        return Dumped;
      }
      var rc, k := FindAndLock(key);
      ghost var s := ChainOf(key);
      if rc < 0 {
        if flag == DB_REPLACE {
          return Returned(-1);
        }
        var ptr := ReadPtr(chainoff, Head(s));
        var fr, j := FindFree(|key|, size);
        if fr < 0 {
          var ok := AppendRecord(key, data, ptr);
          if !ok {
            Absent(Live(d0), key);
            return Dumped;
          }
        } else {
          ReuseRecord(key, data, ptr, d0, j);
        }
      } else {
        ghost var i := d0.links.lists[s][k];
        Walk(d0, s, k);
        LiveAt(d0, i);
        if flag == DB_INSERT {
          return Returned(1);
        }
        if size != datlen {
          DoDelete(s, k);
          Ready(db);
          PtrFits(db, Head(s));
          var ptr := ReadPtr(chainoff, Head(s));
          var ok := AppendRecord(key, data, ptr);
          if !ok {
            return Dumped;
          }
          ReplaceKey(Live(d0), key, data);
        } else {
          WriteDat(data, datoff, SeekSet, i);
          OverwriteDone(d0, i, data);
        }
      }
      return Returned(0);
    }

    method Delete(key: string) returns (rc: int)
      requires Valid()
      modifies this
      ensures Valid() && Contents() == old(Contents()) - {key}
      ensures rc == if key in old(Contents()) then 0 else -1
      ensures |idx| == |old(idx)| && |dat| == |old(dat)|
    {
      hide Shaped, Holds, Linked, Offset, DatOff, PlaceOf, Addr, Consistent, Live, KeysDistinct, Hash;
      ghost var d0 := db;
      Ready(d0);
      var found, k := FindAndLock(key);
      if found == 0 {
        Walk(d0, ChainOf(key), k);
        LiveAt(d0, d0.links.lists[ChainOf(key)][k]);
        DoDelete(ChainOf(key), k);
        rc := 0;
      } else {
        Absent(Live(d0), key);
        rc := -1;
      }
    }

    method Fetch(key: string) returns (r: Option<string>)
      requires Valid()
      modifies this`pos, this`idxbuf, this`idxoff, this`idxlen, this`datoff, this`datlen, this`ptrval,
               this`ptroff, this`chainoff
      ensures Valid() && Contents() == old(Contents())
      ensures r == if key in Contents() then Some(Contents()[key]) else None
    {
      hide Shaped, Holds, Linked, Offset, DatOff, PlaceOf, Addr, Consistent, Live, KeysDistinct, Hash;
      Ready(db);
      var found, k := FindAndLock(key);
      if found < 0 {
        r := None;
      } else {
        ghost var i := db.links.lists[ChainOf(key)][k];
        Walk(db, ChainOf(key), k);
        LiveAt(db, i);
        var s := ReadDat(i);
        r := Some(s);
      }
    }

    // ---------- the scan ----------

    ghost predicate Scanning()
      reads this
    {
      Valid() && cursor <= |db.recs| && pos == Offset(db.recs, cursor)
    }

    /** What the scan has still to return. */
    ghost function Pending(): seq<(string, string)>
      reads this
      requires Scanning()
    {
      Scan(db.recs, cursor)
    }

    method Rewind()
      requires Valid()
      modifies this`pos, this`idxoff, this`cursor
      ensures Scanning() && Pending() == Scan(db.recs, 0)
    {
      idxoff := SLOTS * PTR_SZ + 1;
      pos := idxoff;
      cursor := 0;
    }

    /** The next pending record, if there is one; a blank key is taken for a deleted record. */
    method NextRec() returns (r: Option<(string, string)>)
      requires Scanning()
      modifies this`pos, this`idxbuf, this`idxoff, this`idxlen, this`datoff, this`datlen, this`ptrval, this`cursor
      ensures Scanning()
      ensures old(Pending()) == [] ==> r == None && Pending() == []
      ensures old(Pending()) != [] ==> r == Some(old(Pending())[0]) && Pending() == old(Pending())[1..]
    {
      hide Shaped, Holds, Offset, DatOff, Consistent;
      while true
        invariant Scanning() && Pending() == old(Pending())
        decreases |db.recs| - cursor
      {
        ghost var i := cursor;
        var next := ReadIdx(0, i);
        if next < 0 {
          return None;
        }
        cursor := i + 1;
        var blank := SkipBlanks(idxbuf);
        if !blank {
          var data := ReadDat(i);
          return Some((idxbuf, data));
        }
      }
    }

    /** The inner loop of db_nextrec: true when only blanks come before the end of the key. */
    method SkipBlanks(key: string) returns (blank: bool)
      ensures blank <==> IsBlank(key)
    {
      var p := 0;
      while p < |key| && key[p] == ' '
        invariant p <= |key| && forall j :: 0 <= j < p ==> key[j] == ' '
      {
        p := p + 1;
      }
      blank := p == |key|;
    }

    // ---------- whole sessions ----------

    ghost function Now(): Snapshot
      reads this
    {
      Snapshot(db, |idx|, |dat|)
    }

    /** One call: it dies exactly when the state before it says so; else it does and answers what a map does. */
    method Answer(c: Call) returns (reply: Reply)
      requires Valid() && (c.StoreCall? ==> NoSeparator(c.key))
      modifies this
      ensures reply == Died <==> Dies(old(Now()), c)
      ensures reply != Died ==> Valid() && Contents() == SpecNext(old(Contents()), c)
      ensures reply != Died ==> reply == SpecReply(old(Contents()), c)
      ensures reply != Died ==> |idx| <= |old(idx)| + IDX_GROWTH && |dat| <= |old(dat)| + DATLEN_MAX
    {
      hide Shaped, Holds, Consistent, Live, NoSeparator, KeysDistinct, SpecStoreMap, SpecStoreCode, StoreDies;
      Ready(db);
      match c
      case StoreCall(key, data, flag) =>
        var out := Store(key, data, flag);
        reply := if out.Returned? then Code(out.rc) else Died;
      case DeleteCall(key) =>
        var rc := Delete(key);
        reply := Code(rc);
      case FetchCall(key) =>
        var r := Fetch(key);
        reply := Data(r);
    }

    /**
     Any sequence of calls is answered as a plain map answers it, up to a call that dies; a call dies exactly when
     the state before it says so, and none does when the keys and data fit and the files have room.
     */
    method Session(calls: seq<Call>) returns (replies: seq<Reply>, ghost states: seq<Snapshot>)
      requires Valid()
      requires forall c <- calls :: c.StoreCall? ==> NoSeparator(c.key)
      modifies this
      ensures |states| == |replies| <= |calls| && (calls != [] ==> states != [] && states[0] == old(Now()))
      ensures forall n :: 0 <= n < |replies| ==> Answers(old(Contents()), calls, n, states[n], replies[n])
      ensures forall n :: 0 <= n < |replies| - 1 ==> replies[n] != Died
      ensures |replies| < |calls| ==> replies != [] && replies[|replies| - 1] == Died
      ensures Died !in replies ==> Valid() && Contents() == SpecFinal(old(Contents()), calls)
      ensures Roomy(|old(idx)|, |old(dat)|, |calls|) && (forall c <- calls :: Fitting(c)) ==> Died !in replies
    {
      hide Stored, Consistent, Live, NoSeparator, KeysDistinct, SpecNext, SpecReply, Dies, Fitting, SpecRun;
      replies, states := [], [];
      ghost var (m, s0) := (Contents(), Now());
      for n := 0 to |calls|
        invariant Valid() && |replies| == |states| == n && Died !in replies
        invariant Contents() == SpecFinal(m, calls[..n])
        invariant if n > 0 then states[0] == s0 else Now() == s0
        invariant |idx| <= s0.idxsize + n * IDX_GROWTH && |dat| <= s0.datsize + n * DATLEN_MAX
        invariant forall j :: 0 <= j < n ==> Answers(m, calls, j, states[j], replies[j])
      {
        ghost var s := Now();
        Ready(db);
        assert calls[..n + 1][..n] == calls[..n];
        SpecRunAt(m, calls, n);
        assert calls[n] in calls;
        var reply := Answer(calls[n]);
        replies, states := replies + [reply], states + [s];
        if reply == Died {
          if Roomy(s0.idxsize, s0.datsize, |calls|) && Fitting(calls[n]) {
            Survives(s, calls[n]);
          }
          return;
        }
      }
      assert calls[..|calls|] == calls;
    }

    /**
     On a new database that many calls, with keys and data that fit, never die: they are a plain map's, all of them.
     */
    static method NewSession(calls: seq<Call>) returns (d: Database, replies: seq<Reply>)
      requires forall c <- calls :: c.StoreCall? ==> NoSeparator(c.key)
      requires |calls| <= SAFE_CALLS && forall c <- calls :: Fitting(c)
      ensures fresh(d) && d.Valid() && d.Contents() == SpecFinal(map[], calls) && replies == SpecRun(map[], calls)
    {
      hide Shaped, Holds, Consistent, Live, NoSeparator, KeysDistinct, SpecFinal, SpecRun, Dies, Fitting;
      d := new Database();
      ghost var states;
      replies, states := d.Session(calls);
      forall n: nat | n < |calls| ensures replies[n] == SpecRun(map[], calls)[n] {
        assert Answers(map[], calls, n, states[n], replies[n]) && replies[n] in replies;
      }
    }

    /** A key of blanks that is in the database and that a scan does not return. */
    static method BlankIsLost() returns (d: Database, r: Option<string>, n: Option<(string, string)>)
      ensures d.Valid() && d.Contents() == map[" " := "v"] && r == Some("v") && n == None
    {
      hide Shaped, Holds, Consistent, Live, KeysDistinct, Dies, StoreDies, Scan;
      var call := StoreCall(" ", "v", DB_INSERT);
      var replies;
      d, replies := NewSession([call]);
      assert [call][..0] == [];
      r := d.Fetch(" ");
      d.Rewind();
      ScanIsLive(d.db);
      NoneListed(d.Pending(), d.Contents());
      n := d.NextRec();
    }
  }

  /**
   The state s before call n has the plain map's contents; the call dies when s says so, else the reply is the map's.
   */
  ghost predicate Answers(m: map<string, string>, calls: seq<Call>, n: nat, s: Snapshot, reply: Reply)
    requires n < |calls|
  {
    && KeysDistinct(s.db) && Live(s.db) == SpecFinal(m, calls[..n])
    && (if Dies(s, calls[n]) then reply == Died else reply == SpecRun(m, calls)[n])
  }

  /** A list of pairs whose keys are not blank is empty when the map has only blank keys. */
  lemma NoneListed(ps: seq<(string, string)>, m: map<string, string>)
    requires forall p <- ps :: p.0 in m && !IsBlank(p.0)
    requires forall key <- m :: IsBlank(key)
    ensures ps == []
  {
    HasFirst(ps);
  }

  lemma HasFirst<T>(s: seq<T>)
    ensures s != [] ==> exists x :: x in s
  {
    if s != [] {
      assert s[0] in s;
    }
  }

  lemma Survives(s: Snapshot, c: Call)
    requires KeysDistinct(s.db) && Fitting(c) && s.idxsize <= PTR_MAX && s.datsize <= PTR_MAX
    ensures !Dies(s, c)
  {
    if c.StoreCall? && FlagOk(c.flag) {
      RoomFits(s.idxsize, s.datsize, c.key, c.data);
    }
  }

  lemma Prefixes(db: Db, idx: string, dat: string, a: string, b: string)
    requires Holds(db, idx, dat)
    ensures Image(db) <= idx + a && DatImage(db.recs) <= dat + b
  {
  }

  lemma Tail(dat: string, data: string, dat': string)
    requires dat' == dat + data + "\n"
    ensures |dat'| == |dat| + |data| + 1 && dat'[..|dat|] == dat && dat'[|dat|..] == data + "\n"
  {
  }

  lemma AppendSize(db: Db, key: string, data: string, w: nat)
    requires w <= |db.recs|
    ensures |Append(db, key, data, w).recs| == |db.recs| + 1
  {
  }

  lemma Intact(db: Db, idx: string, dat: string)
    requires Holds(db, idx, dat)
    ensures Image(db) <= idx && DatImage(db.recs) <= dat
  {
  }

  lemma Absent(m: map<string, string>, key: string)
    requires key !in m
    ensures m - {key} == m
  {
  }

  lemma AddrNew(db: Db, d: Db, off: nat)
    requires |d.recs| == |db.recs| + 1 && Offset(d.recs, |db.recs|) == off
    ensures Addr(d.recs, |db.recs| + 1) == off
  {
  }

  lemma RightSize(db: Db, k: nat, keylen: nat, datlen: nat)
    requires |db.links.lists| > 0 && k < |db.links.lists[0]| && db.links.lists[0][k] < |db.recs|
    requires |db.recs[db.links.lists[0][k]].key| == keylen && db.recs[db.links.lists[0][k]].DatLen() == datlen
    ensures !NoneFree(db, keylen, datlen)
  {
    assert !WrongSize(db, k, keylen, datlen);
  }

  lemma Sizes(db: Db, k: nat, keylen: nat, datlen: nat)
    requires |db.links.lists| > 0 && k < |db.links.lists[0]| && db.links.lists[0][k] < |db.recs|
    requires !(|db.recs[db.links.lists[0][k]].key| == keylen && db.recs[db.links.lists[0][k]].DatLen() == datlen)
    ensures WrongSize(db, k, keylen, datlen)
  {
  }

  lemma FrontPlace(db: Db, s: nat)
    requires s < |db.links.lists|
    ensures PlaceOf(db.links, s, 0) == Head(s)
  {
  }

  lemma Differs(db: Db, s: nat, k: nat, key: string)
    requires s < |db.links.lists| && k < |db.links.lists[s]| && db.links.lists[s][k] < |db.recs|
    requires db.recs[db.links.lists[s][k]].key != key
    ensures OtherKey(db, s, k, key)
  {
  }

  lemma Rejoin(dat: string, off: nat, data: string)
    requires off <= |dat| && dat[off..] == data + "\n"
    ensures dat[..off] + data + "\n" == dat
  {
    assert dat[..off] + (data + "\n") == dat;
  }
}
