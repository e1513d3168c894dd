/**
 The lock protocol of refer_code/apue.2e/db/db.c: any number of processes run fetch, delete,
 store and scan operations under byte-range locks, each access to a file one atomic step: a
 lock, an unlock, and the reading or writing of a pointer, of an index record (for which
 _db_readidx makes two system calls) or of a record's data.  Records are numbered; a pointer is
 0 or i + 1 for record i.  The data file is a row of extents.  head and next are the pointers in
 the index file; V is the linked structure they spell once the pointer write a deleting process
 still owes has been made.
 */
module DbLocks {
  import opened Basics
  import opened Links
  import DbState

  const SLOTS := 138
  const DB_INSERT := 1
  const DB_REPLACE := 2


  datatype Op = FetchOp(key: string) | DeleteOp(key: string) | StoreOp(key: string, data: string, flag: int)

  function SlotOf(op: Op): (s: nat)
    ensures 0 < s < SLOTS
  {
    DbState.ChainOf(op.key)
  }

  predicate Writes(op: Op) {
    !op.FetchOp?
  }

  /** An index record: its key and the number of its data extent. */
  datatype Info = Info(key: string, ext: nat)

  datatype Owner = OfRec(i: nat) | OfProc(p: nat)

  /** The next thing a process does.  prev, cur, save, ptr and fh are its local pointers; k is where it stands. */
  datatype Pc =
    | Idle
    | Want(op: Op)                                                        // lock the chain
    | ReadHead(op: Op)                                                    // read the chain's slot
    | Walk(op: Op, prev: Place, cur: nat, k: nat)                         // read record cur
    | FetchDat(op: Op, i: nat)                                            // read the data
    | Over(op: Op, i: nat)                                                // overwrite the data
    | Done(op: Op)                                                        // unlock the chain
    | DelWant(op: Op, prev: Place, i: nat, save: nat, k: nat)             // lock the free list
    | DelDat(op: Op, prev: Place, i: nat, save: nat, k: nat)              // blank the data
    | DelHead(op: Op, prev: Place, i: nat, save: nat, k: nat)             // read the free list's slot
    | DelIdx(op: Op, prev: Place, i: nat, save: nat, k: nat, fh: nat)     // rewrite the record
    | DelFree(op: Op, prev: Place, i: nat, save: nat, k: nat)             // write the free list's slot
    | DelPrev(op: Op, prev: Place, i: nat, save: nat, k: nat)             // write the pointer to the record
    | DelUnlock(op: Op)                                                   // unlock the free list
    | StHead(op: Op)                                                      // read the chain's slot again
    | RpHead(op: Op)                                                      // the same, after a deletion
    | FrWant(op: Op, ptr: nat)                                            // lock the free list
    | FrHead(op: Op, ptr: nat)                                            // read its slot
    | FrWalk(op: Op, ptr: nat, prev: Place, cur: nat, k: nat)             // read record cur
    | FrUnlink(op: Op, ptr: nat, prev: Place, i: nat, save: nat, k: nat)  // write the pointer to the record
    | FrHit(op: Op, ptr: nat, i: nat)                                     // unlock the free list
    | FrMiss(op: Op, ptr: nat)                                            // unlock the free list
    | ReDat(op: Op, ptr: nat, i: nat)                                     // write the data over
    | ReIdx(op: Op, ptr: nat, i: nat)                                     // write the record over
    | ApWant(op: Op, ptr: nat)                                            // lock the data file
    | ApDat(op: Op, ptr: nat)                                             // append the data
    | ApUndat(op: Op, ptr: nat, e: nat)                                   // unlock the data file
    | ApWantIdx(op: Op, ptr: nat, e: nat)                                 // lock the append region
    | ApIdx(op: Op, ptr: nat, e: nat)                                     // append the record
    | ApUnidx(op: Op, i: nat)                                             // unlock the append region
    | Link(op: Op, i: nat)                                                // write the chain's slot
    | ScanWant(n: nat)                                                    // lock the free list for reading
    | Scan(n: nat)                                                        // read record n
    | ScanDat(n: nat)                                                     // read its data

  /**
   holder says which process has a record in hand, extOwner whose an extent is, fixer which process
   still owes a pointer write, olds the old data of keys whose replacement by data of another length is
   under way.
   */
  datatype State = State(head: seq<nat>, next: seq<nat>, V: Links, recs: seq<Info>, exts: seq<string>,
                         holder: seq<nat>, extOwner: seq<Owner>, fixer: Option<nat>, olds: map<string, string>,
                         procs: seq<Pc>)

  // ---------- locks ----------

  predicate HasChain(q: Pc) {
    !q.Idle? && !q.Want? && !q.ScanWant? && !q.Scan? && !q.ScanDat?
  }

  predicate FreeW(q: Pc) {
    q.DelDat? || q.DelHead? || q.DelIdx? || q.DelFree? || q.DelPrev? || q.DelUnlock? ||
    q.FrHead? || q.FrWalk? || q.FrUnlink? || q.FrHit? || q.FrMiss?
  }

  predicate FreeR(q: Pc) { q.Scan? || q.ScanDat? }

  predicate DatW(q: Pc) { q.ApDat? || q.ApUndat? }

  predicate IdxW(q: Pc) { q.ApIdx? || q.ApUnidx? }

  /** The locks of two processes do not conflict. */
  predicate Compatible(a: Pc, b: Pc) {
    && (HasChain(a) && HasChain(b) && SlotOf(a.op) == SlotOf(b.op) ==> !Writes(a.op) && !Writes(b.op))
    && !(FreeW(a) && FreeW(b)) && !(FreeW(a) && FreeR(b)) && !(FreeR(a) && FreeW(b))
    && !(DatW(a) && DatW(b)) && !(IdxW(a) && IdxW(b))
  }

  /** The record a process has taken off its list or not yet put on one. */
  function InHand(q: Pc): Option<nat> {
    match q
    case DelFree(_, _, i, _, _) => Some(i)
    case FrHit(_, _, i) => Some(i)
    case ReDat(_, _, i) => Some(i)
    case ReIdx(_, _, i) => Some(i)
    case ApUnidx(_, i) => Some(i)
    case Link(_, i) => Some(i)
    case _ => None
  }

  /** The extent a process has appended and not yet written a record for. */
  function ExtHeld(q: Pc): Option<nat> {
    match q
    case ApUndat(_, _, e) => Some(e)
    case ApWantIdx(_, _, e) => Some(e)
    case ApIdx(_, _, e) => Some(e)
    case _ => None
  }

  predicate Fixing(q: Pc) { q.DelFree? || q.DelPrev? }

  // ---------- steps ----------

  datatype Choice = Start(op: Op) | StartScan(n: nat) | Go

  predicate Blocking(q: Pc) {
    q.Want? || q.DelWant? || q.FrWant? || q.ApWant? || q.ApWantIdx? || q.ScanWant?
  }

  /** What a process that was waiting does once it has its lock. */
  function Acquired(q: Pc): Pc
    requires Blocking(q)
  {
    match q
    case Want(op) => ReadHead(op)
    case DelWant(op, prev, i, save, k) => DelDat(op, prev, i, save, k)
    case FrWant(op, ptr) => FrHead(op, ptr)
    case ApWant(op, ptr) => ApDat(op, ptr)
    case ApWantIdx(op, ptr, e) => ApIdx(op, ptr, e)
    case ScanWant(n) => Scan(n)
  }

  /** A lock is granted when it conflicts with nobody's. */
  ghost predicate Enabled(s: State, p: nat, c: Choice) {
    && p < |s.procs|
    && (c.Go? <==> !s.procs[p].Idle?)
    && (Blocking(s.procs[p]) ==> forall r: nat :: r < |s.procs| && r != p ==>
       Compatible(Acquired(s.procs[p]), s.procs[r]))
  }

  function At(s: State, p: nat, q: Pc): State
    requires p < |s.procs|
  {
    s.(procs := s.procs[p := q])
  }

  /** The data of record i. */
  function Data(s: State, i: nat): string {
    if i < |s.recs| && s.recs[i].ext < |s.exts| then s.exts[s.recs[i].ext] else ""
  }

  /** _db_find_and_lock has read record i, whose pointer is nx. */
  function AfterRead(s: State, q: Pc, i: nat, nx: nat): Pc
    requires q.Walk? && i < |s.recs|
  {
    if s.recs[i].key != q.op.key then Walk(q.op, Next(i), nx, q.k + 1)
    else match q.op
      case FetchOp(_) => FetchDat(q.op, i)
      case DeleteOp(_) => DelWant(q.op, q.prev, i, nx, q.k)
      case StoreOp(_, data, flag) =>
        if flag == DB_INSERT then Done(q.op)
        else if |Data(s, i)| == |data| then Over(q.op, i)
        else DelWant(q.op, q.prev, i, nx, q.k)
  }

  function AfterMiss(op: Op): Pc {
    if op.StoreOp? && op.flag != DB_REPLACE then StHead(op) else Done(op)
  }

  function AfterFree(s: State, q: Pc, i: nat, nx: nat): Pc
    requires q.FrWalk? && q.op.StoreOp? && i < |s.recs|
  {
    if |s.recs[i].key| == |q.op.key| && |Data(s, i)| == |q.op.data|
    then FrUnlink(q.op, q.ptr, q.prev, i, nx, q.k)
    else FrWalk(q.op, q.ptr, Next(i), nx, q.k + 1)
  }

  /** Steps that change only the process itself. */
  function Local(s: State, q: Pc): Pc
    requires Good(s, q)
  {
    match q
    case Idle => q
    case Want(_) => Acquired(q)
    case ReadHead(op) => Walk(op, Head(SlotOf(op)), s.head[SlotOf(op)], 0)
    case Walk(op, prev, cur, k) => if cur == 0 then AfterMiss(op) else AfterRead(s, q, cur - 1, s.next[cur - 1])
    case FetchDat(op, _) => Done(op)
    case Done(_) => Idle
    case DelWant(_, _, _, _, _) => Acquired(q)
    case DelHead(op, prev, i, save, k) => DelIdx(op, prev, i, save, k, s.head[0])
    case DelUnlock(op) => if op.DeleteOp? then Done(op) else RpHead(op)
    case StHead(op) => FrWant(op, s.head[SlotOf(op)])
    case RpHead(op) => ApWant(op, s.head[SlotOf(op)])
    case FrWant(_, _) => Acquired(q)
    case FrHead(op, ptr) => FrWalk(op, ptr, Head(0), s.head[0], 0)
    case FrWalk(op, ptr, prev, cur, k) =>
      if cur == 0 then FrMiss(op, ptr) else AfterFree(s, q, cur - 1, s.next[cur - 1])
    case FrHit(op, ptr, i) => ReDat(op, ptr, i)
    case FrMiss(op, ptr) => ApWant(op, ptr)
    case ApWant(_, _) => Acquired(q)
    case ApUndat(op, ptr, e) => ApWantIdx(op, ptr, e)
    case ApWantIdx(_, _, _) => Acquired(q)
    case ApUnidx(op, i) => Link(op, i)
    case ScanWant(_) => Acquired(q)
    case Scan(n) => if n >= |s.recs| then Idle else if DbState.IsBlank(s.recs[n].key) then Scan(n + 1) else ScanDat(n)
    case ScanDat(_) => Idle
    case _ => q
  }

  /** The sizes of the tables agree. */
  predicate Sizes(s: State) {
    && |s.head| == |s.V.head| == |s.V.lists| == SLOTS
    && |s.next| == |s.V.next| == |s.V.owner| == |s.holder| == |s.recs|
    && |s.extOwner| == |s.exts|
  }

  /** Record i, to which place prev points, is at position k of list t. */
  predicate Found(s: State, t: nat, prev: Place, i: nat, k: nat)
    requires Sizes(s) && t < SLOTS
  {
    k < |s.V.lists[t]| && s.V.lists[t][k] == i && i < |s.recs| && prev == PlaceOf(s.V, t, k) && PlaceIn(s, prev)
  }

  /** What a step dereferences is there. */
  predicate Good(s: State, q: Pc) {
    && Sizes(s)
    && (q.Walk? ==> q.cur <= |s.recs|)
    && (q.FrWalk? ==> q.cur <= |s.recs| && q.op.StoreOp?)
    && (q.DelFree? || q.ReIdx? || q.Link? ==> q.i < |s.recs|)
    && (q.DelPrev? ==> PlaceIn(s, q.prev))
    && (q.DelIdx? ==> Found(s, SlotOf(q.op), q.prev, q.i, q.k))
    && (q.FrUnlink? ==> Found(s, 0, q.prev, q.i, q.k))
    && (q.ApDat? ==> q.op.StoreOp?)
    && (q.ApIdx? ==> q.e < |s.exts|)
    && (q.Over? || q.ReDat? ==> q.op.StoreOp?)
    && (q.Over? || q.DelDat? || q.ReDat? ==> q.i < |s.recs| && s.recs[q.i].ext < |s.exts|)
  }

  predicate PlaceIn(s: State, p: Place) {
    match p
    case Head(t) => t < SLOTS
    case Next(i) => i < |s.recs|
  }

  predicate IsShared(q: Pc) {
    q.Over? || q.DelDat? || q.ReDat? || q.DelIdx? || q.DelFree? || q.DelPrev? || q.FrUnlink? || q.ReIdx? ||
    q.ApDat? || q.ApIdx? || q.Link?
  }

  function WritePtr(s: State, p: Place, v: nat): State
    requires |s.head| == SLOTS && |s.next| == |s.recs| && PlaceIn(s, p)
  {
    match p
    case Head(t) => s.(head := s.head[t := v])
    case Next(i) => s.(next := s.next[i := v])
  }

  // Steps that write a shared file, with the lists brought up to date.

  /** The data of record i is written over; olds are then the old data of keys being replaced. */
  function Put(s: State, i: nat, data: string, olds: map<string, string>): State
    requires i < |s.recs| && s.recs[i].ext < |s.exts|
  {
    s.(exts := s.exts[s.recs[i].ext := data], olds := olds)
  }

  /** db_store replaces data of the same length. */
  function AfterOver(s: State, p: nat, q: Pc): State
    requires p < |s.procs| && q.Over? && Good(s, q)
  {
    At(Put(s, q.i, q.op.data, s.olds), p, Done(q.op))
  }

  /** _db_dodelete blanks the data. */
  function AfterDelDat(s: State, p: nat, q: Pc): State
    requires p < |s.procs| && q.DelDat? && Good(s, q)
  {
    var olds := if q.op.StoreOp? then s.olds[q.op.key := Data(s, q.i)] else s.olds;
    At(Put(s, q.i, DbState.Blanks(|Data(s, q.i)|), olds), p, DelHead(q.op, q.prev, q.i, q.save, q.k))
  }

  function AfterReDat(s: State, p: nat, q: Pc): State
    requires p < |s.procs| && q.ReDat? && Good(s, q)
  {
    At(Put(s, q.i, q.op.data, s.olds), p, ReIdx(q.op, q.ptr, q.i))
  }

  /** _db_dodelete blanks the record and points it at the free list's first record. */
  function AfterDelIdx(s: State, p: nat, q: Pc): State
    requires p < |s.procs| && q.DelIdx? && Good(s, q)
  {
    var t := WritePtr(s, Next(q.i), q.fh);
    At(t.(recs := s.recs[q.i := s.recs[q.i].(key := DbState.Blanks(|s.recs[q.i].key|))],
          V := Set(Unlink(s.V, SlotOf(q.op), q.k), Next(q.i), q.fh), holder := s.holder[q.i := p], fixer := Some(p)),
       p, DelFree(q.op, q.prev, q.i, q.save, q.k))
  }

  function AfterDelFree(s: State, p: nat, q: Pc): State
    requires p < |s.procs| && q.DelFree? && Good(s, q)
  {
    At(WritePtr(s, Head(0), q.i + 1).(V := Push(s.V, 0, q.i)), p, DelPrev(q.op, q.prev, q.i, q.save, q.k))
  }

  function AfterDelPrev(s: State, p: nat, q: Pc): State
    requires p < |s.procs| && q.DelPrev? && Good(s, q)
  {
    At(WritePtr(s, q.prev, q.save).(fixer := None), p, DelUnlock(q.op))
  }

  /** _db_findfree takes a record that fits off the free list. */
  function AfterFrUnlink(s: State, p: nat, q: Pc): State
    requires p < |s.procs| && q.FrUnlink? && Good(s, q)
  {
    At(WritePtr(s, q.prev, q.save).(V := Unlink(s.V, 0, q.k), holder := s.holder[q.i := p]), p, FrHit(q.op, q.ptr, q.i))
  }

  function AfterReIdx(s: State, p: nat, q: Pc): State
    requires p < |s.procs| && q.ReIdx? && Good(s, q)
  {
    At(WritePtr(s, Next(q.i), q.ptr).(V := Set(s.V, Next(q.i), q.ptr),
        recs := s.recs[q.i := s.recs[q.i].(key := q.op.key)]),
       p, Link(q.op, q.i))
  }

  function AfterApDat(s: State, p: nat, q: Pc): State
    requires p < |s.procs| && q.ApDat? && Good(s, q)
  {
    At(s.(exts := s.exts + [q.op.data], extOwner := s.extOwner + [OfProc(p)]), p, ApUndat(q.op, q.ptr, |s.exts|))
  }

  function AfterApIdx(s: State, p: nat, q: Pc): State
    requires p < |s.procs| && q.ApIdx? && Good(s, q)
  {
    At(s.(next := s.next + [q.ptr], V := Grow(s.V, q.ptr), recs := s.recs + [Info(q.op.key, q.e)],
          holder := s.holder + [p], extOwner := s.extOwner[q.e := OfRec(|s.recs|)]), p, ApUnidx(q.op, |s.recs|))
  }

  function AfterLink(s: State, p: nat, q: Pc): State
    requires p < |s.procs| && q.Link? && Good(s, q)
  {
    At(WritePtr(s, Head(SlotOf(q.op)), q.i + 1).(V := Push(s.V, SlotOf(q.op), q.i), olds := s.olds - {q.op.key}),
       p, Done(q.op))
  }

  function Shared(s: State, p: nat, q: Pc): State
    requires p < |s.procs| && Good(s, q) && IsShared(q)
  {
    match q
    case Over(_, _) => AfterOver(s, p, q)
    case DelDat(_, _, _, _, _) => AfterDelDat(s, p, q)
    case ReDat(_, _, _) => AfterReDat(s, p, q)
    case DelIdx(_, _, _, _, _, _) => AfterDelIdx(s, p, q)
    case DelFree(_, _, _, _, _) => AfterDelFree(s, p, q)
    case DelPrev(_, _, _, _, _) => AfterDelPrev(s, p, q)
    case FrUnlink(_, _, _, _, _, _) => AfterFrUnlink(s, p, q)
    case ReIdx(_, _, _) => AfterReIdx(s, p, q)
    case ApDat(_, _) => AfterApDat(s, p, q)
    case ApIdx(_, _, _) => AfterApIdx(s, p, q)
    case Link(_, _) => AfterLink(s, p, q)
  }

  ghost function Step(s: State, p: nat, c: Choice): State
    requires Enabled(s, p, c) && Good(s, s.procs[p])
  {
    match c
    case Start(op) => At(s, p, Want(op))
    case StartScan(n) => At(s, p, ScanWant(n))
    case Go => if IsShared(s.procs[p]) then Shared(s, p, s.procs[p]) else At(s, p, Local(s, s.procs[p]))
  }

  // ---------- invariant ----------

  function Key(s: State, i: nat): string {
    if i < |s.recs| then s.recs[i].key else ""
  }

  /** The first k records of list t do not have the key. */
  predicate Unseen(s: State, t: nat, k: nat, key: string)
    requires Sizes(s) && t < SLOTS
  {
    forall j :: 0 <= j < k && j < |s.V.lists[t]| ==> Key(s, s.V.lists[t][j]) != key
  }

  predicate Absent(s: State, t: nat, key: string)
    requires Sizes(s) && t < SLOTS
  {
    Unseen(s, t, |s.V.lists[t]|, key)
  }

  /** A process stands at position k of list t: it knows the place of the pointer there and its value. */
  predicate Stands(s: State, t: nat, prev: Place, v: nat, k: nat)
    requires Sizes(s) && t < SLOTS
  {
    k <= |s.V.lists[t]| && prev == PlaceOf(s.V, t, k) && v == To(s.V.lists[t], k)
  }

  predicate Victim(s: State, t: nat, prev: Place, i: nat, save: nat, k: nat)
    requires Sizes(s) && t < SLOTS
  {
    k < |s.V.lists[t]| && s.V.lists[t][k] == i && prev == PlaceOf(s.V, t, k) && save == To(s.V.lists[t], k + 1)
  }

  predicate Deleting(q: Pc) {
    q.DelWant? || q.DelDat? || q.DelHead? || q.DelIdx?
  }

  predicate HasPtr(q: Pc) {
    q.FrWant? || q.FrHead? || q.FrWalk? || q.FrUnlink? || q.FrHit? || q.FrMiss? || q.ReDat? || q.ReIdx? ||
    q.ApWant? || q.ApDat? || q.ApUndat? || q.ApWantIdx? || q.ApIdx?
  }

  /** The process has a new record for its chain's front. */
  predicate Linking(q: Pc) { q.ApUnidx? || q.Link? }

  /** The process is past finding that its chain has no record with its key. */
  predicate Missed(q: Pc) {
    Fixing(q) || q.DelUnlock? || q.StHead? || q.RpHead? || HasPtr(q) || Linking(q)
  }

  predicate OpOk(q: Pc) {
    && (Deleting(q) || Fixing(q) || q.DelUnlock? ==> Writes(q.op))
    && (q.Over? || q.StHead? || q.RpHead? || HasPtr(q) || Linking(q) ==> q.op.StoreOp?)
  }

  /** Where a process stands in the lists it has locked. */
  predicate Position(s: State, q: Pc)
    requires Sizes(s)
  {
    && (q.Walk? ==> Stands(s, SlotOf(q.op), q.prev, q.cur, q.k))
    && (Deleting(q) ==> Victim(s, SlotOf(q.op), q.prev, q.i, q.save, q.k))
    && (q.DelIdx? ==> q.fh == To(s.V.lists[0], 0))
    && (Fixing(q) ==> Stands(s, SlotOf(q.op), q.prev, q.save, q.k))
    && (q.FrWalk? ==> Stands(s, 0, q.prev, q.cur, q.k))
    && (q.FrUnlink? ==> Victim(s, 0, q.prev, q.i, q.save, q.k))
    && (HasPtr(q) ==> q.ptr == To(s.V.lists[SlotOf(q.op)], 0))
    && (q.FetchDat? || q.Over? ==> q.i in s.V.lists[SlotOf(q.op)])
  }

  /** What it knows of keys, and of the record in its hand. */
  predicate Contents(s: State, q: Pc)
    requires Sizes(s)
  {
    && (q.Walk? ==> Unseen(s, SlotOf(q.op), q.k, q.op.key))
    && (q.ScanDat? ==> q.n < |s.recs| && !DbState.IsBlank(Key(s, q.n)))
    && (q.FetchDat? || q.Over? || Deleting(q) ==> Key(s, q.i) == q.op.key)
    && (Missed(q) ==> Absent(s, SlotOf(q.op), q.op.key))
    && (q.DelFree? && q.i < |s.recs| ==> s.V.next[q.i] == To(s.V.lists[0], 0) && DbState.IsBlank(Key(s, q.i)))
    && ((q.FrHit? || q.ReDat? || q.ReIdx?) && q.i < |s.recs| ==> DbState.IsBlank(Key(s, q.i)))
    && (Linking(q) && q.i < |s.recs| ==> s.V.next[q.i] == To(s.V.lists[SlotOf(q.op)], 0) && Key(s, q.i) == q.op.key)
  }

  /** What it knows of data: a record to be written over has the right sizes, and one to be linked has its data. */
  predicate DataFacts(s: State, q: Pc) {
    && (q.Over? && q.op.StoreOp? ==> |Data(s, q.i)| == |q.op.data|)
    && ((q.FrUnlink? || q.FrHit? || q.ReDat?) && q.op.StoreOp? ==> |Data(s, q.i)| == |q.op.data|)
    && ((q.FrUnlink? || q.FrHit? || q.ReDat? || q.ReIdx?) && q.op.StoreOp? ==> |Key(s, q.i)| == |q.op.key|)
    && ((q.ReIdx? || Linking(q)) && q.op.StoreOp? ==> Data(s, q.i) == q.op.data)
    && ((q.ApUndat? || q.ApWantIdx? || q.ApIdx?) && q.op.StoreOp? && q.e < |s.exts| ==> s.exts[q.e] == q.op.data)
  }

  predicate Facts(s: State, q: Pc)
    requires Sizes(s)
  {
    Position(s, q) && Contents(s, q) && DataFacts(s, q)
  }

  predicate ProcOk(s: State, p: nat)
    requires Sizes(s) && p < |s.procs|
  {
    var q := s.procs[p];
    && OpOk(q) && Facts(s, q)
    && (InHand(q).Some? ==> var i := InHand(q).value; i < |s.recs| && s.V.owner[i] == SLOTS && s.holder[i] == p)
    && (ExtHeld(q).Some? ==> var e := ExtHeld(q).value; e < |s.exts| && s.extOwner[e] == OfProc(p))
  }

  /** A record is free and blank, on the chain of its key, or in the hand of one process; its extent is its own. */
  predicate RecOk(s: State, i: nat)
    requires Sizes(s) && i < |s.recs|
  {
    && (s.V.owner[i] == 0 ==> DbState.IsBlank(s.recs[i].key))
    && (0 < s.V.owner[i] < SLOTS ==> s.V.owner[i] == DbState.ChainOf(s.recs[i].key))
    && (s.V.owner[i] == SLOTS ==> s.holder[i] < |s.procs| && InHand(s.procs[s.holder[i]]) == Some(i))
    && s.recs[i].ext < |s.exts| && s.extOwner[s.recs[i].ext] == OfRec(i)
  }

  /** An extent belongs to one record, or to the process that appended it. */
  predicate ExtOk(s: State, e: nat)
    requires Sizes(s) && e < |s.exts|
  {
    match s.extOwner[e]
    case OfRec(i) => i < |s.recs| && s.recs[i].ext == e
    case OfProc(p) => p < |s.procs| && ExtHeld(s.procs[p]) == Some(e)
  }

  predicate LiveRec(s: State, i: nat)
    requires Sizes(s) && i < |s.recs|
  {
    0 < s.V.owner[i] < SLOTS
  }

  predicate KeysOk(s: State)
    requires Sizes(s)
  {
    forall i, j :: 0 <= i < j < |s.recs| && LiveRec(s, i) && LiveRec(s, j) ==> s.recs[i].key != s.recs[j].key
  }

  predicate Exclusive(s: State) {
    forall p, r :: 0 <= p < |s.procs| && 0 <= r < |s.procs| && p != r ==> Compatible(s.procs[p], s.procs[r])
  }

  /** The pointers in the index file are those of V, but for the one a deleting process still has to write. */
  ghost predicate Spelled(s: State)
    requires Sizes(s)
  {
    match s.fixer
    case None => s.head == s.V.head && s.next == s.V.next
    case Some(p) =>
      && p < |s.procs| && Fixing(s.procs[p]) && PlaceIn(s, s.procs[p].prev)
      && var W := Set(s.V, s.procs[p].prev, s.procs[p].i + 1); s.head == W.head && s.next == W.next
  }

  predicate FixerOk(s: State) {
    forall p :: 0 <= p < |s.procs| && Fixing(s.procs[p]) ==> s.fixer == Some(p)
  }

  ghost predicate Tables(s: State) {
    && Sizes(s) && Linked(s.V)
    && (forall i: nat :: i < |s.recs| ==> RecOk(s, i))
    && (forall e: nat :: e < |s.exts| ==> ExtOk(s, e))
    && KeysOk(s)
  }

  ghost predicate Inv(s: State) {
    && Tables(s)
    && Exclusive(s) && FixerOk(s) && Spelled(s)
    && (forall p: nat :: p < |s.procs| ==> ProcOk(s, p))
  }

  // ---------- what a process may do ----------

  lemma Bound(s: State, t: nat, k: nat)
    requires Sizes(s) && Linked(s.V) && t < SLOTS && k <= |s.V.lists[t]|
    ensures To(s.V.lists[t], k) <= |s.recs| && PlaceIn(s, PlaceOf(s.V, t, k))
    ensures Get(s.V, PlaceOf(s.V, t, k)) == To(s.V.lists[t], k)
    ensures k < |s.V.lists[t]| ==> s.V.lists[t][k] < |s.recs| && s.V.next[s.V.lists[t][k]] == To(s.V.lists[t], k + 1)
    ensures k < |s.V.lists[t]| ==> s.V.owner[s.V.lists[t][k]] == t
  {
    PlaceHolds(s.V, t, k);
    if k < |s.V.lists[t]| {
      assert Entry(s.V, t, k);
    }
  }

  /** No step of any process follows a dangling pointer. */
  lemma StepsDefined(s: State, p: nat)
    requires Inv(s) && p < |s.procs|
    ensures Good(s, s.procs[p])
  {
    hide Compatible, Exclusive, Linked, Spelled, FixerOk, RecOk, ExtOk, KeysOk, Unseen;
    var q := s.procs[p];
    assert ProcOk(s, p);
    if q.Walk? || Deleting(q) || Fixing(q) {
      Bound(s, SlotOf(q.op), q.k);
    }
    if q.FrWalk? || q.FrUnlink? {
      Bound(s, 0, q.k);
    }
    if q.Over? {
      var k :| 0 <= k < |s.V.lists[SlotOf(q.op)]| && s.V.lists[SlotOf(q.op)][k] == q.i;
      Bound(s, SlotOf(q.op), k);
    }
    if q.Over? || q.DelDat? || q.ReDat? {
      HasExtent(s, q.i);
    }
  }

  lemma HasExtent(s: State, i: nat)
    requires Tables(s) && i < |s.recs|
    ensures s.recs[i].ext < |s.exts| && s.extOwner[s.recs[i].ext] == OfRec(i)
  {
    assert RecOk(s, i);
  }

  /** Two places of different lists differ. */
  lemma PlacesApart(L: Links, t: nat, k: nat, u: nat, m: nat)
    requires Linked(L) && t < |L.lists| && u < |L.lists| && t != u && k <= |L.lists[t]| && m <= |L.lists[u]|
    ensures PlaceOf(L, t, k) != PlaceOf(L, u, m)
  {
    if k > 0 && m > 0 && L.lists[t][k - 1] == L.lists[u][m - 1] {
      OneList(L, t, u, L.lists[t][k - 1]);
    }
  }

  function PhysAt(s: State, p: Place): nat
    requires Sizes(s) && PlaceIn(s, p)
  {
    match p
    case Head(t) => s.head[t]
    case Next(i) => s.next[i]
  }

  predicate Locks(q: Pc, t: nat) {
    (HasChain(q) && SlotOf(q.op) == t) || (FreeW(q) && t == 0)
  }

  /** Only the list a fixing process has locked is not spelled out by the file. */
  lemma FixerElsewhere(s: State, p: nat, t: nat)
    requires Inv(s) && p < |s.procs| && Locks(s.procs[p], t) && !Fixing(s.procs[p]) && s.fixer.Some?
    ensures s.fixer.value < |s.procs| && Fixing(s.procs[s.fixer.value])
    ensures var q := s.procs[s.fixer.value]; SlotOf(q.op) != t && Stands(s, SlotOf(q.op), q.prev, q.save, q.k)
  {
    var r := s.fixer.value;
    assert ProcOk(s, r);
    assert Compatible(s.procs[p], s.procs[r]);
  }

  /** A process that holds a list's lock reads that list's pointers as they are in V. */
  lemma ReadsTrue(s: State, p: nat, t: nat, k: nat)
    requires Inv(s) && p < |s.procs| && Locks(s.procs[p], t) && !Fixing(s.procs[p]) && t < SLOTS && k <= |s.V.lists[t]|
    ensures PlaceIn(s, PlaceOf(s.V, t, k)) && PhysAt(s, PlaceOf(s.V, t, k)) == To(s.V.lists[t], k)
  {
    hide Compatible, Exclusive, FixerOk, RecOk, ExtOk, KeysOk, Unseen, ProcOk, Facts, Locks;
    Bound(s, t, k);
    if s.fixer.Some? {
      FixerElsewhere(s, p, t);
      var q := s.procs[s.fixer.value];
      PlacesApart(s.V, t, k, SlotOf(q.op), q.k);
    }
  }

  lemma UnseenNext(s: State, t: nat, k: nat, key: string)
    requires Sizes(s) && t < SLOTS && k < |s.V.lists[t]| && Unseen(s, t, k, key) && Key(s, s.V.lists[t][k]) != key
    ensures Unseen(s, t, k + 1, key)
  {
  }

  lemma ReadFacts(s: State, p: nat)
    requires Inv(s) && p < |s.procs| && s.procs[p].Walk? && s.procs[p].cur != 0 && Good(s, s.procs[p])
    ensures var q := s.procs[p];
            var q' := AfterRead(s, q, q.cur - 1, s.next[q.cur - 1]); OpOk(q') && Facts(s, q')
  {
    hide Compatible, Exclusive, FixerOk, RecOk, ExtOk, KeysOk, Linked, Spelled;
    var q := s.procs[p];
    assert ProcOk(s, p);
    var t := SlotOf(q.op);
    Bound(s, t, q.k);
    ReadsTrue(s, p, t, q.k + 1);
    if Key(s, q.cur - 1) != q.op.key {
      UnseenNext(s, t, q.k, q.op.key);
    }
  }

  lemma WalkFacts(s: State, p: nat)
    requires Inv(s) && p < |s.procs| && (s.procs[p].ReadHead? || s.procs[p].Walk?) && Good(s, s.procs[p])
    ensures OpOk(Local(s, s.procs[p])) && Facts(s, Local(s, s.procs[p]))
  {
    hide Compatible, Exclusive, FixerOk, RecOk, ExtOk, KeysOk, Linked, Spelled, Unseen, AfterRead;
    var q := s.procs[p];
    assert ProcOk(s, p);
    if q.ReadHead? {
      var t := SlotOf(q.op);
      ReadsTrue(s, p, t, 0);
      assert Unseen(s, t, 0, q.op.key) by { UnseenNone(s, t, q.op.key); }
    } else if q.cur != 0 {
      ReadFacts(s, p);
    }
  }

  lemma UnseenNone(s: State, t: nat, key: string)
    requires Sizes(s) && t < SLOTS
    ensures Unseen(s, t, 0, key)
  {
  }

  lemma FreeWalkFacts(s: State, p: nat)
    requires Inv(s) && p < |s.procs| && (s.procs[p].FrHead? || s.procs[p].FrWalk? || s.procs[p].DelHead?)
    requires Good(s, s.procs[p])
    ensures OpOk(Local(s, s.procs[p])) && Facts(s, Local(s, s.procs[p]))
  {
    hide Compatible, Exclusive, FixerOk, RecOk, ExtOk, KeysOk, Linked, Spelled, Unseen;
    var q := s.procs[p];
    assert ProcOk(s, p);
    if !q.FrWalk? {
      ReadsTrue(s, p, 0, 0);
    } else if q.cur != 0 {
      Bound(s, 0, q.k);
      ReadsTrue(s, p, 0, q.k + 1);
    }
  }

  lemma AcquireFacts(s: State, p: nat)
    requires Inv(s) && p < |s.procs| && Blocking(s.procs[p]) && Good(s, s.procs[p])
    ensures OpOk(Local(s, s.procs[p])) && Facts(s, Local(s, s.procs[p]))
  {
    hide Compatible, Exclusive, FixerOk, RecOk, ExtOk, KeysOk, Linked, Spelled, Unseen, Stands, Victim;
    assert ProcOk(s, p);
  }

  lemma OtherFacts(s: State, p: nat)
    requires Inv(s) && p < |s.procs| && !IsShared(s.procs[p]) && Good(s, s.procs[p])
    requires var q := s.procs[p]; !q.ReadHead? && !q.Walk? && !q.FrHead? && !q.FrWalk? && !q.DelHead? && !Blocking(q)
    ensures OpOk(Local(s, s.procs[p])) && Facts(s, Local(s, s.procs[p]))
  {
    hide Compatible, Exclusive, FixerOk, RecOk, ExtOk, KeysOk, Linked, Spelled, Unseen, Stands, Victim;
    var q := s.procs[p];
    assert ProcOk(s, p);
    if q.StHead? || q.RpHead? {
      ReadsTrue(s, p, SlotOf(q.op), 0);
    }
  }

  // ---------- a step leaves the others alone ----------

  predicate SlotSame(s: State, t: State, x: nat)
    requires Sizes(s) && Sizes(t) && x < SLOTS
  {
    && t.V.lists[x] == s.V.lists[x]
    && forall j :: 0 <= j < |s.V.lists[x]| ==> SameText(s, t, s.V.lists[x][j])
  }

  predicate SameText(s: State, t: State, i: nat) {
    Key(t, i) == Key(s, i) && Data(t, i) == Data(s, i)
  }

  /** Everything process r relies on is as it was. */
  predicate Framed(s: State, t: State, r: nat)
    requires Sizes(s) && Sizes(t) && r < |s.procs| == |t.procs| && ProcOk(s, r) && |s.recs| <= |t.recs|
  {
    var q := s.procs[r];
    && t.procs[r] == q
    && (HasChain(q) ==> SlotSame(s, t, SlotOf(q.op)))
    && (FreeW(q) ==> SlotSame(s, t, 0))
    && (q.ScanDat? ==> Key(t, q.n) == Key(s, q.n))
    && (InHand(q).Some? ==>
          var i := InHand(q).value;
          t.V.next[i] == s.V.next[i] && t.V.owner[i] == s.V.owner[i] && t.holder[i] == s.holder[i] && SameText(s, t, i))
    && (ExtHeld(q).Some? ==>
          var e := ExtHeld(q).value;
          e < |t.exts| && t.extOwner[e] == s.extOwner[e] && t.exts[e] == s.exts[e])
  }

  lemma UnseenFrame(s: State, t: State, x: nat, k: nat, key: string)
    requires Sizes(s) && Sizes(t) && x < SLOTS && SlotSame(s, t, x) && Unseen(s, x, k, key)
    ensures Unseen(t, x, k, key)
  {
    forall j | 0 <= j < k && j < |t.V.lists[x]|
      ensures Key(t, t.V.lists[x][j]) != key
    {
      assert SameText(s, t, s.V.lists[x][j]);
    }
  }

  lemma PositionFrame(s: State, t: State, r: nat)
    requires Sizes(s) && Sizes(t) && r < |s.procs| == |t.procs| && ProcOk(s, r) && |s.recs| <= |t.recs|
    requires Framed(s, t, r)
    ensures Position(t, s.procs[r])
  {
    hide Contents;
  }

  lemma ContentsFrame(s: State, t: State, r: nat)
    requires Sizes(s) && Sizes(t) && r < |s.procs| == |t.procs| && ProcOk(s, r) && |s.recs| <= |t.recs|
    requires Framed(s, t, r)
    ensures Contents(t, s.procs[r])
  {
    hide Unseen, Stands, DataFacts;
    var q := s.procs[r];
    TextFrame(s, t, r);
    if q.Walk? {
      UnseenFrame(s, t, SlotOf(q.op), q.k, q.op.key);
    }
    if Missed(q) {
      UnseenFrame(s, t, SlotOf(q.op), |s.V.lists[SlotOf(q.op)]|, q.op.key);
    }
  }

  /** The records on its list that a process knows by number. */
  lemma TextFrame(s: State, t: State, r: nat)
    requires Sizes(s) && Sizes(t) && r < |s.procs| == |t.procs| && ProcOk(s, r) && |s.recs| <= |t.recs|
    requires Framed(s, t, r)
    ensures var q := s.procs[r]; q.FetchDat? || q.Over? || Deleting(q) || q.FrUnlink? ==> SameText(s, t, q.i)
  {
    hide Contents, DataFacts, SameText;
    var q := s.procs[r];
    if q.FetchDat? || q.Over? || Deleting(q) {
      var l := s.V.lists[SlotOf(q.op)];
      var k :| 0 <= k < |l| && l[k] == q.i;
      assert SameText(s, t, l[k]);
    } else if q.FrUnlink? {
      assert SameText(s, t, s.V.lists[0][q.k]);
    }
  }

  lemma DataFrame(s: State, t: State, r: nat)
    requires Sizes(s) && Sizes(t) && r < |s.procs| == |t.procs| && ProcOk(s, r) && |s.recs| <= |t.recs|
    requires Framed(s, t, r)
    ensures DataFacts(t, s.procs[r])
  {
    hide Position, Contents, SlotSame;
    TextFrame(s, t, r);
  }

  lemma FactsFrame(s: State, t: State, r: nat)
    requires Sizes(s) && Sizes(t) && r < |s.procs| == |t.procs| && ProcOk(s, r) && |s.recs| <= |t.recs|
    requires Framed(s, t, r)
    ensures ProcOk(t, r)
  {
    hide Position, Contents, SlotSame, DataFacts;
    PositionFrame(s, t, r);
    ContentsFrame(s, t, r);
    DataFrame(s, t, r);
  }

  /** Process p, holding list x's lock or with record i in its hand, changes list x and record i. */
  ghost predicate MayTouch(s: State, p: nat, x: nat, i: nat)
    requires Sizes(s) && p < |s.procs|
  {
    var q := s.procs[p];
    && (x < SLOTS ==> HasChain(q) && Writes(q.op) && Locks(q, x))
    && (i < |s.recs| ==> (s.V.owner[i] == x < SLOTS || (s.V.owner[i] == SLOTS && s.holder[i] == p)))
    && (InHand(q).None? || InHand(q) == Some(i))
  }

  predicate SameRec(s: State, t: State, j: nat)
    requires Sizes(s) && Sizes(t) && j < |s.recs| <= |t.recs|
  {
    && t.recs[j] == s.recs[j] && t.V.owner[j] == s.V.owner[j] && t.holder[j] == s.holder[j]
    && (s.V.owner[j] == SLOTS ==> t.V.next[j] == s.V.next[j])
  }

  /** ... and changes nothing else. */
  ghost predicate Touches(s: State, t: State, p: nat, x: nat, i: nat)
    requires Sizes(s)
  {
    && Sizes(t) && |s.recs| <= |t.recs| && |s.exts| <= |t.exts|
    && |t.procs| == |s.procs| && (forall r :: 0 <= r < |s.procs| && r != p ==> t.procs[r] == s.procs[r])
    && (forall y :: 0 <= y < SLOTS && y != x ==> t.V.lists[y] == s.V.lists[y])
    && (forall j: nat :: j < |s.recs| && j != i ==> SameRec(s, t, j))
    && (i < |s.recs| ==> t.recs[i].ext == s.recs[i].ext)
    && (i < |s.recs| && p < |s.procs| ==>
          t.recs[i].key == s.recs[i].key || FreeW(s.procs[p]) || DbState.IsBlank(s.recs[i].key))
    && (forall e :: 0 <= e < |s.exts| && s.extOwner[e] != OfProc(p) ==> t.extOwner[e] == s.extOwner[e])
    && (forall e :: 0 <= e < |s.exts| && s.extOwner[e] != OfRec(i) ==> t.exts[e] == s.exts[e])
  }

  lemma SameData(s: State, t: State, p: nat, x: nat, i: nat, j: nat)
    requires Tables(s) && Touches(s, t, p, x, i) && j < |s.recs| && j != i
    ensures SameText(s, t, j)
  {
    hide Linked, KeysOk, ExtOk;
    assert RecOk(s, j) && SameRec(s, t, j);
  }

  lemma ListOwner(s: State, y: nat, j: nat)
    requires Sizes(s) && Linked(s.V) && y < SLOTS && j < |s.V.lists[y]|
    ensures s.V.lists[y][j] < |s.recs| && s.V.owner[s.V.lists[y][j]] == y
  {
    assert Entry(s.V, y, j);
  }

  lemma OtherSlot(s: State, t: State, p: nat, x: nat, i: nat, y: nat)
    requires Tables(s) && p < |s.procs| && MayTouch(s, p, x, i) && Touches(s, t, p, x, i)
    requires y < SLOTS && y != x
    ensures SlotSame(s, t, y)
  {
    hide Linked, KeysOk, ExtOk, RecOk, SameText;
    forall j | 0 <= j < |s.V.lists[y]|
      ensures SameText(s, t, s.V.lists[y][j])
    {
      ListOwner(s, y, j);
      SameData(s, t, p, x, i, s.V.lists[y][j]);
    }
  }

  lemma ScanFacts(s: State, q: Pc)
    requires Sizes(s) && Facts(s, q)
    ensures q.ScanDat? ==> q.n < |s.recs| && !DbState.IsBlank(s.recs[q.n].key)
    ensures q.ReIdx? && q.i < |s.recs| ==> DbState.IsBlank(s.recs[q.i].key)
  {
    hide Position, Unseen, DataFacts;
  }

  lemma OthersFramed(s: State, t: State, p: nat, x: nat, i: nat, r: nat)
    requires Inv(s) && p < |s.procs| && r < |s.procs| && r != p && MayTouch(s, p, x, i) && Touches(s, t, p, x, i)
    ensures ProcOk(s, r) && Framed(s, t, r)
  {
    hide Linked, RecOk, ExtOk, KeysOk, Spelled, FixerOk, Facts, SlotSame, OpOk, SameText;
    var (q, o) := (s.procs[r], s.procs[p]);
    assert ProcOk(s, r) && Compatible(o, q);
    if HasChain(q) {
      OtherSlot(s, t, p, x, i, SlotOf(q.op));
    }
    if FreeW(q) {
      OtherSlot(s, t, p, x, i, 0);
    }
    if InHand(q).Some? {
      assert SameRec(s, t, InHand(q).value);
      SameData(s, t, p, x, i, InHand(q).value);
    }
    if q.ScanDat? {
      ScanFacts(s, q);
      if q.n != i {
        assert SameRec(s, t, q.n);
      }
    }
  }

  lemma RecsKeep(s: State, t: State, p: nat, x: nat, i: nat, j: nat)
    requires Inv(s) && p < |s.procs| && MayTouch(s, p, x, i) && Touches(s, t, p, x, i)
    requires j < |s.recs| && j != i
    ensures RecOk(t, j)
  {
    hide Linked, ExtOk, KeysOk, Spelled, FixerOk, Facts, OpOk, Exclusive;
    assert RecOk(s, j) && SameRec(s, t, j);
  }

  lemma ExtsKeep(s: State, t: State, p: nat, x: nat, i: nat, e: nat)
    requires Inv(s) && p < |s.procs| && MayTouch(s, p, x, i) && Touches(s, t, p, x, i)
    requires e < |s.exts| && s.extOwner[e] != OfProc(p)
    ensures ExtOk(t, e)
  {
    hide Linked, KeysOk, Spelled, FixerOk, Facts, OpOk, Exclusive, RecOk;
    assert ExtOk(s, e);
    if s.extOwner[e].OfRec? && s.extOwner[e].i != i {
      assert SameRec(s, t, s.extOwner[e].i);
    }
  }

  /** The record is not live, or its key is on no other live record. */
  predicate NewKey(s: State, t: State, i: nat)
    requires Sizes(s) && Sizes(t) && i < |t.recs|
  {
    LiveRec(t, i) ==> forall j: nat :: j < |s.recs| && j != i && LiveRec(s, j) ==> s.recs[j].key != t.recs[i].key
  }

  lemma KeysKeep(s: State, t: State, p: nat, x: nat, i: nat)
    requires Sizes(s) && KeysOk(s) && Touches(s, t, p, x, i)
    requires |t.recs| == |s.recs| || (i == |s.recs| && |t.recs| == |s.recs| + 1)
    requires i < |t.recs| ==> NewKey(s, t, i)
    ensures KeysOk(t)
  {
    hide Linked;
    forall j, k | 0 <= j < k < |t.recs| && LiveRec(t, j) && LiveRec(t, k)
      ensures t.recs[j].key != t.recs[k].key
    {
      if j != i {
        assert SameRec(s, t, j);
      }
      if k != i {
        assert SameRec(s, t, k);
      }
    }
  }

  /** Putting the pieces of a step's proof together. */
  lemma Kept(s: State, t: State, p: nat, x: nat, i: nat)
    requires Inv(s) && p < |s.procs| && MayTouch(s, p, x, i) && Touches(s, t, p, x, i) && Linked(t.V)
    requires |t.recs| == |s.recs| || (i == |s.recs| && |t.recs| == |s.recs| + 1)
    requires i < |t.recs| ==> RecOk(t, i) && NewKey(s, t, i)
    requires forall e: nat :: e < |t.exts| && (e >= |s.exts| || s.extOwner[e] == OfProc(p)) ==> ExtOk(t, e)
    requires FixerOk(t) && Spelled(t) && ProcOk(t, p)
    requires forall r: nat :: r < |s.procs| && r != p ==> Compatible(t.procs[p], s.procs[r])
    ensures Inv(t)
  {
    hide Linked, RecOk, ExtOk, KeysOk, Spelled, FixerOk, ProcOk, Framed, MayTouch, NewKey;
    forall j: nat | j < |t.recs|
      ensures RecOk(t, j)
    {
      if j != i {
        RecsKeep(s, t, p, x, i, j);
      }
    }
    forall e: nat | e < |t.exts|
      ensures ExtOk(t, e)
    {
      if e < |s.exts| && s.extOwner[e] != OfProc(p) {
        ExtsKeep(s, t, p, x, i, e);
      }
    }
    KeysKeep(s, t, p, x, i);
    forall r: nat | r < |t.procs|
      ensures ProcOk(t, r)
    {
      if r != p {
        OthersFramed(s, t, p, x, i, r);
        FactsFrame(s, t, r);
      }
    }
    StillExclusive(s, t, p);
  }

  lemma StillExclusive(s: State, t: State, p: nat)
    requires p < |s.procs| == |t.procs| && Exclusive(s)
    requires forall r :: 0 <= r < |s.procs| && r != p ==> t.procs[r] == s.procs[r]
    requires forall r: nat :: r < |s.procs| && r != p ==> Compatible(t.procs[p], s.procs[r])
    ensures Exclusive(t)
  {
    forall a, b | 0 <= a < |t.procs| && 0 <= b < |t.procs| && a != b
      ensures Compatible(t.procs[a], t.procs[b])
    {
      if a == p {
        assert Compatible(t.procs[p], s.procs[b]);
      } else if b == p {
        assert Compatible(t.procs[p], s.procs[a]);
      } else {
        assert Compatible(s.procs[a], s.procs[b]);
      }
    }
  }

  // ---------- every step keeps the invariant ----------

  predicate Weaker(q': Pc, q: Pc) {
    && (HasChain(q') ==> HasChain(q) && q'.op == q.op)
    && (FreeW(q') ==> FreeW(q)) && (FreeR(q') ==> FreeR(q)) && (DatW(q') ==> DatW(q)) && (IdxW(q') ==> IdxW(q))
  }

  lemma FewerLocks(s: State, p: nat, q': Pc)
    requires p < |s.procs| && Exclusive(s) && Weaker(q', s.procs[p])
    ensures forall r: nat :: r < |s.procs| && r != p ==> Compatible(q', s.procs[r])
  {
    forall r: nat | r < |s.procs| && r != p
      ensures Compatible(q', s.procs[r])
    {
      assert Compatible(s.procs[p], s.procs[r]);
    }
  }

  lemma SamePlaces(s: State, t: State, q: Pc)
    requires Sizes(s) && Sizes(t) && t.V == s.V && t.recs == s.recs && Facts(s, q)
    ensures Position(t, q) && Contents(t, q)
  {
    hide DataFacts;
  }

  lemma SameTables(s: State, t: State, q: Pc)
    requires Sizes(s) && Sizes(t) && t.V == s.V && t.recs == s.recs && t.exts == s.exts && Facts(s, q)
    ensures Facts(t, q)
  {
    hide Position, Contents;
    SamePlaces(s, t, q);
  }

  /** A step that writes a record's data. */
  lemma DataKeeps(s: State, p: nat, q': Pc, x: nat, i: nat, data: string, olds: map<string, string>)
    requires Inv(s) && p < |s.procs| && i < |s.recs| && s.recs[i].ext < |s.exts| && MayTouch(s, p, x, i)
    requires Weaker(q', s.procs[p]) && !Fixing(s.procs[p]) && !Fixing(q') && OpOk(q')
    requires InHand(q') == InHand(s.procs[p]) && ExtHeld(q') == ExtHeld(s.procs[p]) == None
    requires Facts(At(Put(s, i, data, olds), p, q'), q')
    ensures Inv(At(Put(s, i, data, olds), p, q'))
  {
    hide Linked, Exclusive, OpOk, Compatible, Facts;
    var (t, q) := (At(Put(s, i, data, olds), p, q'), s.procs[p]);
    assert ProcOk(s, p) && RecOk(s, i);
    NoExtent(s, p);
    FewerLocks(s, p, q');
    forall j: nat | j < |s.recs| && j != i && LiveRec(s, j) && LiveRec(s, i)
      ensures s.recs[j].key != s.recs[i].key
    {
    }
    Kept(s, t, p, x, i);
  }

  lemma OverKeeps(s: State, p: nat)
    requires Inv(s) && p < |s.procs| && s.procs[p].Over?
    ensures Good(s, s.procs[p]) && Inv(AfterOver(s, p, s.procs[p]))
  {
    hide Exclusive, KeysOk, Linked, ExtOk, RecOk, Compatible, Spelled, FixerOk;
    StepsDefined(s, p);
    var q := s.procs[p];
    assert ProcOk(s, p);
    var k :| 0 <= k < |s.V.lists[SlotOf(q.op)]| && s.V.lists[SlotOf(q.op)][k] == q.i;
    ListOwner(s, SlotOf(q.op), k);
    DataKeeps(s, p, Done(q.op), SlotOf(q.op), q.i, q.op.data, s.olds);
  }

  lemma DelDatKeeps(s: State, p: nat)
    requires Inv(s) && p < |s.procs| && s.procs[p].DelDat?
    ensures Good(s, s.procs[p]) && Inv(AfterDelDat(s, p, s.procs[p]))
  {
    hide Exclusive, KeysOk, Linked, ExtOk, RecOk, Compatible, Spelled, FixerOk, Unseen;
    StepsDefined(s, p);
    var q := s.procs[p];
    assert ProcOk(s, p);
    ListOwner(s, SlotOf(q.op), q.k);
    var (d, q') := (DbState.Blanks(|Data(s, q.i)|), DelHead(q.op, q.prev, q.i, q.save, q.k));
    var olds := AfterDelDat(s, p, q).olds;
    SamePlaces(s, At(Put(s, q.i, d, olds), p, q'), q');
    DataKeeps(s, p, q', SlotOf(q.op), q.i, d, olds);
  }

  lemma ReDatKeeps(s: State, p: nat)
    requires Inv(s) && p < |s.procs| && s.procs[p].ReDat?
    ensures Good(s, s.procs[p]) && Inv(AfterReDat(s, p, s.procs[p]))
  {
    hide Exclusive, KeysOk, Linked, ExtOk, RecOk, Compatible, Spelled, FixerOk, Unseen;
    StepsDefined(s, p);
    var q := s.procs[p];
    assert ProcOk(s, p);
    var q' := ReIdx(q.op, q.ptr, q.i);
    ReDatPlaces(s, At(Put(s, q.i, q.op.data, s.olds), p, q'), q);
    DataKeeps(s, p, q', SLOTS, q.i, q.op.data, s.olds);
  }

  lemma ReDatPlaces(s: State, t: State, q: Pc)
    requires Sizes(s) && Sizes(t) && t.V == s.V && t.recs == s.recs && Facts(s, q) && q.ReDat?
    ensures Position(t, ReIdx(q.op, q.ptr, q.i)) && Contents(t, ReIdx(q.op, q.ptr, q.i))
  {
    hide DataFacts;
  }

  /** A step that changes no file. */
  lemma QuietKeeps(s: State, p: nat, q': Pc)
    requires Inv(s) && p < |s.procs| && !Fixing(s.procs[p]) && !Fixing(q') && OpOk(q') && Facts(s, q')
    requires InHand(q') == InHand(s.procs[p]) && ExtHeld(q') == ExtHeld(s.procs[p])
    requires forall r: nat :: r < |s.procs| && r != p ==> Compatible(q', s.procs[r])
    ensures Inv(At(s, p, q'))
  {
    hide Linked, KeysOk, Exclusive, OpOk, Compatible, Facts;
    var (t, q) := (At(s, p, q'), s.procs[p]);
    assert ProcOk(s, p);
    var i := if InHand(q).Some? then InHand(q).value else |s.recs|;
    SameTables(s, t, q');
    assert i < |s.recs| ==> RecOk(s, i) && RecOk(t, i) && NewKey(s, t, i);
    forall e: nat | e < |t.exts| && s.extOwner[e] == OfProc(p)
      ensures ExtOk(t, e)
    {
      assert ExtOk(s, e);
    }
    Kept(s, t, p, SLOTS, i);
  }

  lemma LocalPc(s: State, q: Pc)
    requires Good(s, q) && !IsShared(q) && !q.Idle?
    ensures var q' := Local(s, q);
            && InHand(q') == InHand(q) && ExtHeld(q') == ExtHeld(q) && !Fixing(q) && !Fixing(q')
            && (Blocking(q) ==> q' == Acquired(q)) && (!Blocking(q) ==> Weaker(q', q))
  {
  }

  lemma LocalKeeps(s: State, p: nat)
    requires Inv(s) && p < |s.procs| && Enabled(s, p, Go) && !IsShared(s.procs[p])
    ensures Good(s, s.procs[p]) && Inv(At(s, p, Local(s, s.procs[p])))
  {
    hide Linked, KeysOk, Exclusive, OpOk, Facts, Compatible, Spelled, FixerOk, RecOk, ExtOk, Good, Local, ProcOk;
    hide InHand, ExtHeld, Weaker, Acquired;
    StepsDefined(s, p);
    var q := s.procs[p];
    assert ProcOk(s, p);
    if q.ReadHead? || q.Walk? {
      WalkFacts(s, p);
    } else if q.FrHead? || q.FrWalk? || q.DelHead? {
      FreeWalkFacts(s, p);
    } else if Blocking(q) {
      AcquireFacts(s, p);
    } else {
      OtherFacts(s, p);
    }
    LocalPc(s, q);
    var q' := Local(s, q);
    if !Blocking(q) {
      FewerLocks(s, p, q');
    }
    QuietKeeps(s, p, q');
  }

  lemma NoExtent(s: State, p: nat)
    requires Inv(s) && p < |s.procs| && ExtHeld(s.procs[p]).None?
    ensures forall e :: 0 <= e < |s.exts| ==> s.extOwner[e] != OfProc(p)
  {
    forall e | 0 <= e < |s.exts|
      ensures s.extOwner[e] != OfProc(p)
    {
      assert ExtOk(s, e);
    }
  }

  /** Whoever holds the free list's lock is the only one that may owe a pointer write. */
  lemma OnlyFixer(s: State, p: nat)
    requires Inv(s) && p < |s.procs| && FreeW(s.procs[p])
    ensures forall r :: 0 <= r < |s.procs| && r != p ==> !Fixing(s.procs[r])
    ensures s.fixer.Some? ==> s.fixer == Some(p)
    ensures Fixing(s.procs[p]) ==> s.fixer == Some(p)
  {
    forall r | 0 <= r < |s.procs| && r != p
      ensures !Fixing(s.procs[r])
    {
      assert Compatible(s.procs[p], s.procs[r]);
    }
  }

  /** Taking a record off a list leaves the position before it where it was. */
  lemma UnlinkedStands(s: State, t: State, x: nat, prev: Place, i: nat, save: nat, k: nat)
    requires Sizes(s) && Sizes(t) && x < SLOTS && Victim(s, x, prev, i, save, k)
    requires t.V.lists[x] == Omit(s.V.lists[x], k)
    ensures Stands(t, x, prev, save, k)
  {
  }

  /** With the only record of its key taken off, a chain does not have the key. */
  lemma UnlinkedAbsent(s: State, t: State, x: nat, i: nat, k: nat, key: string)
    requires Tables(s) && Sizes(t) && 0 < x < SLOTS && k < |s.V.lists[x]| && s.V.lists[x][k] == i && Key(s, i) == key
    requires t.V.lists[x] == Omit(s.V.lists[x], k)
    requires |t.recs| == |s.recs| && forall j :: 0 <= j < |s.recs| && j != i ==> t.recs[j] == s.recs[j]
    ensures Absent(t, x, key)
  {
    hide RecOk, ExtOk;
    var l := s.V.lists[x];
    ListOwner(s, x, k);
    forall j | 0 <= j < |t.V.lists[x]|
      ensures Key(t, t.V.lists[x][j]) != key
    {
      OmitAt(l, k, j);
      ListOwner(s, x, Was(k, j));
      var m := l[Was(k, j)];
      assert LiveRec(s, m) && LiveRec(s, i) && m != i;
    }
  }

  lemma DelIdxTouches(s: State, p: nat)
    requires Inv(s) && p < |s.procs| && s.procs[p].DelIdx? && Good(s, s.procs[p])
    ensures var (t, q) := (AfterDelIdx(s, p, s.procs[p]), s.procs[p]);
            Touches(s, t, p, SlotOf(q.op), q.i) && MayTouch(s, p, SlotOf(q.op), q.i) && Linked(t.V)
  {
    hide Exclusive, Spelled, FixerOk, RecOk, ExtOk, KeysOk, Facts, Entries, Acyclic, Covered, HeadsOk;
    var q := s.procs[p];
    assert ProcOk(s, p);
    ListOwner(s, SlotOf(q.op), q.k);
    if q.k > 0 {
      ListOwner(s, SlotOf(q.op), q.k - 1);
    }
    UnlinkKeeps(s.V, SlotOf(q.op), q.k);
    HandNext(Unlink(s.V, SlotOf(q.op), q.k), q.i, q.fh);
  }

  lemma DelIdxSpelled(s: State, p: nat)
    requires Inv(s) && p < |s.procs| && s.procs[p].DelIdx? && Good(s, s.procs[p])
    ensures var t := AfterDelIdx(s, p, s.procs[p]); FixerOk(t) && Spelled(t)
  {
    hide Exclusive, RecOk, ExtOk, KeysOk, Linked;
    var q := s.procs[p];
    assert ProcOk(s, p);
    OnlyFixer(s, p);
    Bound(s, SlotOf(q.op), q.k);
    var V' := AfterDelIdx(s, p, q).V;
    if q.k > 0 {
      NotBefore(s.V, SlotOf(q.op), q.k);
    }
    var W := Set(V', q.prev, q.i + 1);
    assert W.head == s.V.head && W.next == s.V.next[q.i := q.fh];
  }

  lemma NotBefore(L: Links, t: nat, k: nat)
    requires Linked(L) && t < |L.lists| && 0 < k < |L.lists[t]|
    ensures L.lists[t][k - 1] != L.lists[t][k]
  {
  }

  lemma DelIdxKeeps(s: State, p: nat)
    requires Inv(s) && p < |s.procs| && s.procs[p].DelIdx?
    ensures Good(s, s.procs[p]) && Inv(AfterDelIdx(s, p, s.procs[p]))
  {
    hide Exclusive, KeysOk, Linked, Spelled, FixerOk, ExtOk, Compatible, Touches, MayTouch, Unseen, Stands;
    StepsDefined(s, p);
    var q := s.procs[p];
    var t := AfterDelIdx(s, p, q);
    DelIdxTouches(s, p);
    DelIdxSpelled(s, p);
    FewerLocks(s, p, t.procs[p]);
    NoExtent(s, p);
    assert ProcOk(s, p) && RecOk(s, q.i);
    UnlinkedStands(s, t, SlotOf(q.op), q.prev, q.i, q.save, q.k);
    UnlinkedAbsent(s, t, SlotOf(q.op), q.i, q.k, q.op.key);
    Kept(s, t, p, SlotOf(q.op), q.i);
  }

  lemma DelFreeTouches(s: State, p: nat)
    requires Inv(s) && p < |s.procs| && s.procs[p].DelFree? && Good(s, s.procs[p])
    ensures var (t, q) := (AfterDelFree(s, p, s.procs[p]), s.procs[p]);
            Touches(s, t, p, 0, q.i) && MayTouch(s, p, 0, q.i) && Linked(t.V)
  {
    hide Exclusive, Spelled, FixerOk, RecOk, ExtOk, KeysOk, Linked;
    var q := s.procs[p];
    assert ProcOk(s, p);
    Bound(s, 0, 0);
    PushKeeps(s.V, 0, q.i);
  }

  lemma DelFreeSpelled(s: State, p: nat)
    requires Inv(s) && p < |s.procs| && s.procs[p].DelFree? && Good(s, s.procs[p])
    ensures var t := AfterDelFree(s, p, s.procs[p]); FixerOk(t) && Spelled(t)
  {
    hide Exclusive, KeysOk, Linked, ExtOk, RecOk, Unseen;
    var q := s.procs[p];
    assert ProcOk(s, p);
    OnlyFixer(s, p);
  }

  lemma DelFreeKeeps(s: State, p: nat)
    requires Inv(s) && p < |s.procs| && s.procs[p].DelFree?
    ensures Good(s, s.procs[p]) && Inv(AfterDelFree(s, p, s.procs[p]))
  {
    hide Exclusive, KeysOk, Linked, ExtOk, Compatible, Unseen, Touches, MayTouch, SlotSame, Spelled, FixerOk;
    StepsDefined(s, p);
    var q := s.procs[p];
    var t := AfterDelFree(s, p, q);
    DelFreeTouches(s, p);
    DelFreeSpelled(s, p);
    assert ProcOk(s, p) && RecOk(s, q.i);
    FewerLocks(s, p, t.procs[p]);
    NoExtent(s, p);
    OtherSlot(s, t, p, 0, q.i, SlotOf(q.op));
    UnseenFrame(s, t, SlotOf(q.op), |s.V.lists[SlotOf(q.op)]|, q.op.key);
    Kept(s, t, p, 0, q.i);
  }

  lemma DelPrevSpelled(s: State, p: nat)
    requires Inv(s) && p < |s.procs| && s.procs[p].DelPrev? && Good(s, s.procs[p])
    ensures var t := AfterDelPrev(s, p, s.procs[p]); FixerOk(t) && Spelled(t)
  {
    hide Exclusive, KeysOk, Linked, ExtOk, RecOk, Unseen;
    var q := s.procs[p];
    assert ProcOk(s, p);
    OnlyFixer(s, p);
    Bound(s, SlotOf(q.op), q.k);
  }

  lemma DelPrevKeeps(s: State, p: nat)
    requires Inv(s) && p < |s.procs| && s.procs[p].DelPrev?
    ensures Good(s, s.procs[p]) && Inv(AfterDelPrev(s, p, s.procs[p]))
  {
    hide Exclusive, KeysOk, Linked, ExtOk, RecOk, Compatible, Unseen, Spelled, FixerOk;
    StepsDefined(s, p);
    var q := s.procs[p];
    var t := AfterDelPrev(s, p, q);
    DelPrevSpelled(s, p);
    assert ProcOk(s, p);
    FewerLocks(s, p, t.procs[p]);
    NoExtent(s, p);
    SameTables(s, t, t.procs[p]);
    Kept(s, t, p, SLOTS, |s.recs|);
  }

  lemma FrUnlinkTouches(s: State, p: nat)
    requires Inv(s) && p < |s.procs| && s.procs[p].FrUnlink? && Good(s, s.procs[p])
    ensures var (t, q) := (AfterFrUnlink(s, p, s.procs[p]), s.procs[p]);
            Touches(s, t, p, 0, q.i) && MayTouch(s, p, 0, q.i) && Linked(t.V) && FixerOk(t) && Spelled(t)
  {
    hide Exclusive, RecOk, ExtOk, KeysOk, Linked;
    var q := s.procs[p];
    assert ProcOk(s, p);
    OnlyFixer(s, p);
    Bound(s, 0, q.k);
    if q.k > 0 {
      ListOwner(s, 0, q.k - 1);
    }
    UnlinkKeeps(s.V, 0, q.k);
  }

  lemma FrUnlinkKeeps(s: State, p: nat)
    requires Inv(s) && p < |s.procs| && s.procs[p].FrUnlink?
    ensures Good(s, s.procs[p]) && Inv(AfterFrUnlink(s, p, s.procs[p]))
  {
    hide Exclusive, KeysOk, Linked, ExtOk, Compatible, Unseen, Touches, MayTouch, SlotSame, Spelled, FixerOk;
    StepsDefined(s, p);
    var q := s.procs[p];
    var t := AfterFrUnlink(s, p, q);
    FrUnlinkTouches(s, p);
    assert ProcOk(s, p) && RecOk(s, q.i);
    ListOwner(s, 0, q.k);
    FewerLocks(s, p, t.procs[p]);
    NoExtent(s, p);
    OtherSlot(s, t, p, 0, q.i, SlotOf(q.op));
    UnseenFrame(s, t, SlotOf(q.op), |s.V.lists[SlotOf(q.op)]|, q.op.key);
    Kept(s, t, p, 0, q.i);
  }

  lemma ApDatKeeps(s: State, p: nat)
    requires Inv(s) && p < |s.procs| && s.procs[p].ApDat?
    ensures Good(s, s.procs[p]) && Inv(AfterApDat(s, p, s.procs[p]))
  {
    hide Exclusive, KeysOk, Linked, RecOk, Compatible, Unseen, Stands, Victim;
    StepsDefined(s, p);
    var q := s.procs[p];
    var t := AfterApDat(s, p, q);
    assert ProcOk(s, p);
    FewerLocks(s, p, t.procs[p]);
    NoExtent(s, p);
    SamePlaces(s, t, t.procs[p]);
    Kept(s, t, p, SLOTS, |s.recs|);
  }

  /** A pointer write of one process into its own list or record does not meet the write another process owes. */
  lemma FixApart(s: State, p: nat, i: nat)
    requires Inv(s) && p < |s.procs| && HasChain(s.procs[p]) && !Fixing(s.procs[p]) && s.fixer.Some?
    requires i >= |s.recs| || s.V.owner[i] == SLOTS
    ensures s.fixer.value < |s.procs| && Fixing(s.procs[s.fixer.value]) && s.fixer.value != p
    ensures s.procs[s.fixer.value].prev != Next(i) && s.procs[s.fixer.value].prev != Head(SlotOf(s.procs[p].op))
  {
    FixerElsewhere(s, p, SlotOf(s.procs[p].op));
    var q := s.procs[s.fixer.value];
    if q.k > 0 {
      ListOwner(s, SlotOf(q.op), q.k - 1);
    }
  }

  lemma ReIdxTouches(s: State, p: nat)
    requires Inv(s) && p < |s.procs| && s.procs[p].ReIdx? && Good(s, s.procs[p])
    ensures var (t, q) := (AfterReIdx(s, p, s.procs[p]), s.procs[p]);
            Touches(s, t, p, SLOTS, q.i) && MayTouch(s, p, SLOTS, q.i) && Linked(t.V) && FixerOk(t) && Spelled(t)
  {
    hide Exclusive, RecOk, ExtOk, KeysOk, Linked, Facts, Compatible;
    var q := s.procs[p];
    assert ProcOk(s, p);
    HandNext(s.V, q.i, q.ptr);
    ScanFacts(s, q);
    if s.fixer.Some? {
      FixApart(s, p, q.i);
    }
  }

  lemma ReIdxKeeps(s: State, p: nat)
    requires Inv(s) && p < |s.procs| && s.procs[p].ReIdx?
    ensures Good(s, s.procs[p]) && Inv(AfterReIdx(s, p, s.procs[p]))
  {
    hide Exclusive, KeysOk, Linked, ExtOk, Compatible, Unseen, Touches, MayTouch, SlotSame, Spelled, FixerOk;
    StepsDefined(s, p);
    var q := s.procs[p];
    var t := AfterReIdx(s, p, q);
    ReIdxTouches(s, p);
    assert ProcOk(s, p) && RecOk(s, q.i);
    FewerLocks(s, p, t.procs[p]);
    NoExtent(s, p);
    OtherSlot(s, t, p, SLOTS, q.i, SlotOf(q.op));
    UnseenFrame(s, t, SlotOf(q.op), |s.V.lists[SlotOf(q.op)]|, q.op.key);
    Kept(s, t, p, SLOTS, q.i);
  }

  lemma ApIdxTouches(s: State, p: nat)
    requires Inv(s) && p < |s.procs| && s.procs[p].ApIdx? && Good(s, s.procs[p])
    ensures var (t, q) := (AfterApIdx(s, p, s.procs[p]), s.procs[p]);
            Touches(s, t, p, SLOTS, |s.recs|) && MayTouch(s, p, SLOTS, |s.recs|) && Linked(t.V) && FixerOk(t)
                && Spelled(t)
  {
    hide Exclusive, RecOk, ExtOk, KeysOk, Linked, Facts, Compatible;
    var q := s.procs[p];
    assert ProcOk(s, p);
    GrowKeeps(s.V, q.ptr);
    if s.fixer.Some? {
      FixApart(s, p, |s.recs|);
    }
  }

  lemma ApIdxKeeps(s: State, p: nat)
    requires Inv(s) && p < |s.procs| && s.procs[p].ApIdx?
    ensures Good(s, s.procs[p]) && Inv(AfterApIdx(s, p, s.procs[p]))
  {
    hide Exclusive, KeysOk, Linked, Compatible, Unseen, Touches, MayTouch, SlotSame, Spelled, FixerOk;
    StepsDefined(s, p);
    var q := s.procs[p];
    var t := AfterApIdx(s, p, q);
    ApIdxTouches(s, p);
    assert ProcOk(s, p);
    FewerLocks(s, p, t.procs[p]);
    OtherSlot(s, t, p, SLOTS, |s.recs|, SlotOf(q.op));
    UnseenFrame(s, t, SlotOf(q.op), |s.V.lists[SlotOf(q.op)]|, q.op.key);
    forall e: nat | e < |t.exts| && s.extOwner[e] == OfProc(p)
      ensures ExtOk(t, e)
    {
      assert ExtOk(s, e);
    }
    Kept(s, t, p, SLOTS, |s.recs|);
  }

  lemma LinkTouches(s: State, p: nat)
    requires Inv(s) && p < |s.procs| && s.procs[p].Link? && Good(s, s.procs[p])
    ensures var (t, q) := (AfterLink(s, p, s.procs[p]), s.procs[p]);
            Touches(s, t, p, SlotOf(q.op), q.i) && MayTouch(s, p, SlotOf(q.op), q.i) && Linked(t.V) && FixerOk(t)
                && Spelled(t)
  {
    hide Exclusive, RecOk, ExtOk, KeysOk, Linked, Compatible, Unseen;
    var q := s.procs[p];
    assert ProcOk(s, p);
    Bound(s, SlotOf(q.op), 0);
    PushKeeps(s.V, SlotOf(q.op), q.i);
    if s.fixer.Some? {
      FixApart(s, p, q.i);
    }
  }

  /** A key that is absent from its chain is on no live record. */
  lemma AbsentEverywhere(s: State, key: string, j: nat)
    requires Tables(s) && Absent(s, DbState.ChainOf(key), key) && j < |s.recs| && LiveRec(s, j)
    ensures s.recs[j].key != key
  {
    assert RecOk(s, j);
    var x := s.V.owner[j];
    var k :| 0 <= k < |s.V.lists[x]| && s.V.lists[x][k] == j;
    assert x == DbState.ChainOf(key) ==> Key(s, s.V.lists[x][k]) != key;
  }

  lemma LinkKeeps(s: State, p: nat)
    requires Inv(s) && p < |s.procs| && s.procs[p].Link?
    ensures Good(s, s.procs[p]) && Inv(AfterLink(s, p, s.procs[p]))
  {
    hide Exclusive, KeysOk, Linked, ExtOk, Compatible, Unseen, Touches, MayTouch, Spelled, FixerOk;
    StepsDefined(s, p);
    var q := s.procs[p];
    var t := AfterLink(s, p, q);
    LinkTouches(s, p);
    assert ProcOk(s, p) && RecOk(s, q.i);
    FewerLocks(s, p, t.procs[p]);
    NoExtent(s, p);
    forall j: nat | j < |s.recs| && j != q.i && LiveRec(s, j)
      ensures s.recs[j].key != t.recs[q.i].key
    {
      AbsentEverywhere(s, q.op.key, j);
    }
    Kept(s, t, p, SlotOf(q.op), q.i);
  }

  lemma StepInv(s: State, p: nat, c: Choice)
    requires Inv(s) && Enabled(s, p, c)
    ensures Good(s, s.procs[p]) && Inv(Step(s, p, c))
  {
    hide Tables, Exclusive, FixerOk, Spelled, ProcOk, Compatible, Local, Good;
    hide AfterDelIdx, AfterDelFree, AfterDelPrev, AfterFrUnlink, AfterReIdx, AfterApDat, AfterApIdx, AfterLink;
    hide AfterOver, AfterDelDat, AfterReDat;
    StepsDefined(s, p);
    match c
    case Start(op) => StartKeeps(s, p, Want(op));
    case StartScan(n) => StartKeeps(s, p, ScanWant(n));
    case Go =>
      match s.procs[p]
      case Over(_, _) => OverKeeps(s, p);
      case DelDat(_, _, _, _, _) => DelDatKeeps(s, p);
      case ReDat(_, _, _) => ReDatKeeps(s, p);
      case DelIdx(_, _, _, _, _, _) => DelIdxKeeps(s, p);
      case DelFree(_, _, _, _, _) => DelFreeKeeps(s, p);
      case DelPrev(_, _, _, _, _) => DelPrevKeeps(s, p);
      case FrUnlink(_, _, _, _, _, _) => FrUnlinkKeeps(s, p);
      case ReIdx(_, _, _) => ReIdxKeeps(s, p);
      case ApDat(_, _) => ApDatKeeps(s, p);
      case ApIdx(_, _, _) => ApIdxKeeps(s, p);
      case Link(_, _) => LinkKeeps(s, p);
      case _ => LocalKeeps(s, p);
  }

  lemma StartKeeps(s: State, p: nat, q': Pc)
    requires Inv(s) && p < |s.procs| && s.procs[p].Idle? && (q'.Want? || q'.ScanWant?)
    ensures Inv(At(s, p, q'))
  {
    hide Tables, FixerOk, Spelled, ProcOk, Compatible;
    FewerLocks(s, p, q');
    QuietKeeps(s, p, q');
  }

  // ---------- every run ----------

  /** A new database with n idle processes: every list is empty. */
  function Initial(n: nat): State {
    var zeros := seq(SLOTS, t => 0);
    State(zeros, [], Threads(zeros, [], seq(SLOTS, t => []), []), [], [], [], [], None, map[], seq(n, p => Idle))
  }

  lemma InitialInv(n: nat)
    ensures Inv(Initial(n))
  {
  }

  datatype Move = Move(p: nat, c: Choice)

  ghost predicate IsRun(run: seq<State>, moves: seq<Move>)
  {
    && |run| == |moves| + 1 && run[0] == Initial(|run[0].procs|)
    && forall k :: 0 <= k < |moves| ==> Moves(run[k], moves[k], run[k + 1])
  }

  ghost predicate Moves(s: State, m: Move, t: State) {
    Enabled(s, m.p, m.c) && Good(s, s.procs[m.p]) && t == Step(s, m.p, m.c)
  }

  lemma {:induction false} RunInv(run: seq<State>, moves: seq<Move>, k: nat)
    requires IsRun(run, moves) && k < |run|
    ensures Inv(run[k])
  {
    if k == 0 {
      InitialInv(|run[0].procs|);
    } else {
      RunInv(run, moves, k - 1);
      assert Moves(run[k - 1], moves[k - 1], run[k]);
      StepInv(run[k - 1], moves[k - 1].p, moves[k - 1].c);
    }
  }

  /**
   The pointers in the file spell list l for slot t: distinct records, each leading to the next, the last to the end.
   */
  predicate Spells(s: State, t: nat, l: seq<nat>) {
    && t < |s.head| && s.head[t] == To(l, 0)
    && (forall k :: 0 <= k < |l| ==> l[k] < |s.next| && s.next[l[k]] == To(l, k + 1))
    && (forall j, k :: 0 <= j < k < |l| ==> l[j] != l[k])
  }

  /** Some process has locked chain t and is between its two pointer writes there. */
  predicate Torn(s: State, t: nat) {
    exists p :: 0 <= p < |s.procs| && Fixing(s.procs[p]) && SlotOf(s.procs[p].op) == t
  }

  /**
   In every state of every run, however the processes interleave, the file spells an acyclic, ending list for
   each slot but the one chain a deleting process has write-locked; the lists have no record in common, a
   record on none is in the hand of exactly one process, and no key is on two live records.
   */
  lemma ListsWellFormed(run: seq<State>, moves: seq<Move>, n: nat)
    requires IsRun(run, moves) && n < |run|
    ensures var s := run[n];
            && Sizes(s)
            && (forall t: nat :: t < SLOTS && !Torn(s, t) ==> Spells(s, t, s.V.lists[t]))
            && (forall i: nat :: i < |s.recs| ==> Placed(s, i))
            && KeysOk(s)
  {
    hide IsRun, Exclusive, KeysOk, ExtOk, ProcOk;
    RunInv(run, moves, n);
    var s := run[n];
    forall t: nat | t < SLOTS && !Torn(s, t)
      ensures Spells(s, t, s.V.lists[t])
    {
      UntornSpelled(s, t);
    }
    forall i: nat | i < |s.recs|
      ensures Placed(s, i)
    {
      RecPlaced(s, i);
    }
  }

  /** Record i is on exactly one list and in no hand, or on no list and in exactly one hand. */
  predicate Placed(s: State, i: nat)
    requires Sizes(s)
  {
    || (exists t :: 0 <= t < SLOTS && i in s.V.lists[t] && OnlyOn(s, i, t) && NotInHand(s, i, |s.procs|))
    || (exists p: nat :: p < |s.procs| && InHand(s.procs[p]) == Some(i) && NotInHand(s, i, p) && OnlyOn(s, i, SLOTS))
  }

  predicate OnlyOn(s: State, i: nat, t: nat)
    requires Sizes(s)
  {
    forall u :: 0 <= u < SLOTS && i in s.V.lists[u] ==> u == t
  }

  predicate NotInHand(s: State, i: nat, p: nat) {
    forall r :: 0 <= r < |s.procs| && r != p ==> InHand(s.procs[r]) != Some(i)
  }

  lemma RecPlaced(s: State, i: nat)
    requires Inv(s) && i < |s.recs|
    ensures Placed(s, i)
  {
    hide Exclusive, KeysOk, ExtOk, Facts, OpOk, Spelled, FixerOk;
    var t := s.V.owner[i];
    assert RecOk(s, i);
    forall u | 0 <= u < SLOTS && i in s.V.lists[u]
      ensures u == t
    {
      var k :| 0 <= k < |s.V.lists[u]| && s.V.lists[u][k] == i;
      ListOwner(s, u, k);
    }
    forall r | 0 <= r < |s.procs| && (t == SLOTS ==> r != s.holder[i])
      ensures InHand(s.procs[r]) != Some(i)
    {
      assert ProcOk(s, r);
    }
    if t < SLOTS {
      assert i in s.V.lists[t] && OnlyOn(s, i, t) && NotInHand(s, i, |s.procs|);
    } else {
      assert NotInHand(s, i, s.holder[i]) && OnlyOn(s, i, SLOTS);
    }
  }

  lemma UntornSpelled(s: State, t: nat)
    requires Inv(s) && t < SLOTS && !Torn(s, t)
    ensures Spells(s, t, s.V.lists[t])
  {
    hide Exclusive, KeysOk, ExtOk, RecOk, FixerOk;
    var l := s.V.lists[t];
    forall k: nat | k <= |l|
      ensures PlaceIn(s, PlaceOf(s.V, t, k)) && PhysAt(s, PlaceOf(s.V, t, k)) == To(l, k)
    {
      Bound(s, t, k);
      if s.fixer.Some? {
        var q := s.procs[s.fixer.value];
        assert ProcOk(s, s.fixer.value);
        PlacesApart(s.V, t, k, SlotOf(q.op), q.k);
      }
    }
    assert PhysAt(s, PlaceOf(s.V, t, 0)) == To(l, 0);
    forall k | 0 <= k < |l|
      ensures l[k] < |s.next| && s.next[l[k]] == To(l, k + 1)
    {
      var n: nat := k + 1;
      assert PhysAt(s, PlaceOf(s.V, t, n)) == To(l, n);
    }
  }

  predicate ReadsData(q: Pc, i: nat) { q.FetchDat? && q.i == i }

  predicate WritesData(q: Pc, i: nat) { (q.Over? || q.DelDat? || q.ReDat?) && q.i == i }

  /** While a process writes a record's data no other process reads or writes it. */
  lemma NoDataRace(s: State, p: nat, r: nat, i: nat)
    requires Inv(s) && p < |s.procs| && r < |s.procs| && p != r && WritesData(s.procs[p], i)
    ensures !ReadsData(s.procs[r], i) && !WritesData(s.procs[r], i)
  {
    hide KeysOk, ExtOk, RecOk, Spelled, FixerOk, Linked;
    assert ProcOk(s, p) && ProcOk(s, r) && Compatible(s.procs[p], s.procs[r]);
    DataOwner(s, p, i);
    if ReadsData(s.procs[r], i) || WritesData(s.procs[r], i) {
      DataOwner(s, r, i);
    }
  }

  lemma DataOwner(s: State, p: nat, i: nat)
    requires Inv(s) && p < |s.procs| && (ReadsData(s.procs[p], i) || WritesData(s.procs[p], i))
    ensures i < |s.recs|
    ensures if s.procs[p].ReDat? then s.V.owner[i] == SLOTS && s.holder[i] == p
            else s.V.owner[i] == SlotOf(s.procs[p].op)
  {
    hide Exclusive, KeysOk, ExtOk, RecOk, Spelled, FixerOk, Linked;
    assert ProcOk(s, p);
    var q := s.procs[p];
    if !q.ReDat? {
      var k :| 0 <= k < |s.V.lists[SlotOf(q.op)]| && s.V.lists[SlotOf(q.op)][k] == i;
      ListOwner(s, SlotOf(q.op), k);
    }
  }

  // A scan takes no chain lock: which writes can happen to the data it is reading.

  /** Some run comes to this state. */
  ghost predicate Reached(s: State) {
    exists run: seq<State>, moves: seq<Move> :: IsRun(run, moves) && run[|run| - 1] == s
  }

  lemma ReachedInv(s: State)
    requires Reached(s)
    ensures Inv(s)
  {
    hide Inv;
    var run, moves :| IsRun(run, moves) && run[|run| - 1] == s;
    RunInv(run, moves, |run| - 1);
  }

  ghost predicate Path(states: seq<State>, moves: seq<Move>) {
    |states| == |moves| + 1 && forall k :: 0 <= k < |moves| ==> Moves(states[k], moves[k], states[k + 1])
  }

  /** Steps lead from r to s. */
  ghost predicate Comes(r: State, s: State) {
    Inv(r) && exists states, moves :: Path(states, moves) && states[0] == r && states[|states| - 1] == s
  }

  lemma ComesSelf(r: State)
    requires Inv(r)
    ensures Comes(r, r)
  {
    assert Path([r], []) && [r][0] == r;
  }

  lemma {:induction false} PathInv(states: seq<State>, moves: seq<Move>, k: nat)
    requires Path(states, moves) && Inv(states[0]) && k < |states|
    ensures Inv(states[k])
  {
    hide Inv;
    if k > 0 {
      PathInv(states, moves, k - 1);
      assert Moves(states[k - 1], moves[k - 1], states[k]);
      StepInv(states[k - 1], moves[k - 1].p, moves[k - 1].c);
    }
  }

  lemma ComesInv(r: State, s: State)
    requires Comes(r, s)
    ensures Inv(s)
  {
    hide Inv;
    var states, moves :| Path(states, moves) && states[0] == r && states[|states| - 1] == s;
    PathInv(states, moves, |states| - 1);
  }

  lemma ComesReached(n: nat, s: State)
    requires Comes(Initial(n), s)
    ensures Reached(s)
  {
    hide Inv, Initial;
    var states, moves :| Path(states, moves) && states[0] == Initial(n) && states[|states| - 1] == s;
    assert |Initial(n).procs| == n by { InitialProcs(n); }
    assert IsRun(states, moves);
  }

  lemma InitialProcs(n: nat)
    ensures |Initial(n).procs| == n
  {
  }

  lemma Reach(r: State, s: State, p: nat, c: Choice)
    requires Comes(r, s) && Enabled(s, p, c)
    ensures Good(s, s.procs[p]) && Comes(r, Step(s, p, c))
  {
    hide Inv, Good, Step;
    ComesInv(r, s);
    StepsDefined(s, p);
    var states, moves :| Path(states, moves) && states[0] == r && states[|states| - 1] == s;
    var t := Step(s, p, c);
    assert Moves(s, Move(p, c), t);
    assert Path(states + [t], moves + [Move(p, c)]) && (states + [t])[|states|] == t;
  }

  datatype Writing = Overwriting | Blanking | Reusing

  /** Process p reads the data of a record, in a scan, while process r is about to write it. */
  predicate ScanMeets(s: State, p: nat, r: nat, w: Writing) {
    && p < |s.procs| && r < |s.procs| && s.procs[p].ScanDat? && WritesData(s.procs[r], s.procs[p].n)
    && match w
       case Overwriting => s.procs[r].Over?
       case Blanking => s.procs[r].DelDat?
       case Reusing => s.procs[r].ReDat?
  }

  lemma OnlyOverwrites(s: State, p: nat, r: nat, w: Writing)
    requires Inv(s) && ScanMeets(s, p, r, w)
    ensures w.Overwriting?
  {
    hide KeysOk, ExtOk, RecOk, Spelled, FixerOk, Linked, Position;
    assert ProcOk(s, p) && ProcOk(s, r) && Compatible(s.procs[p], s.procs[r]);
  }

  /** A step of process 0 on its own files while process 1 is idle. */
  lemma GoesOn(r: State, s: State, a: Pc, b: Pc)
    requires |s.procs| == 2 && s.procs[1].Idle? && !a.Idle? && !IsShared(a) && Comes(r, At(s, 0, a))
    requires Good(At(s, 0, a), a) ==> Local(At(s, 0, a), a) == b
    ensures Comes(r, At(s, 0, b))
  {
    hide Comes, Good, Local;
    var u := At(s, 0, a);
    assert Enabled(u, 0, Go);
    Reach(r, u, 0, Go);
    assert At(u, 0, b) == At(s, 0, b);
  }

  /** Process 0 works alone on index slots that are all there. */
  predicate Solo(s: State) {
    |s.procs| == 2 && s.procs[1].Idle? && |s.head| == SLOTS
  }

  lemma FindsNothing(r: State, s: State, op: Op)
    requires Solo(s) && op.StoreOp? && op.flag == DB_INSERT && s.head[SlotOf(op)] == 0 && Comes(r, At(s, 0, Want(op)))
    ensures Comes(r, At(s, 0, StHead(op)))
  {
    hide Comes, Good, SlotOf;
    GoesOn(r, s, Want(op), ReadHead(op));
    GoesOn(r, s, ReadHead(op), Walk(op, Head(SlotOf(op)), 0, 0));
    GoesOn(r, s, Walk(op, Head(SlotOf(op)), 0, 0), StHead(op));
  }

  lemma FindsNoFree(r: State, s: State, op: Op)
    requires Solo(s) && op.StoreOp? && s.head[SlotOf(op)] == 0 && s.head[0] == 0 && Comes(r, At(s, 0, StHead(op)))
    ensures Comes(r, At(s, 0, ApWant(op, 0)))
  {
    hide Comes, Good, SlotOf;
    GoesOn(r, s, StHead(op), FrWant(op, 0));
    GoesOn(r, s, FrWant(op, 0), FrHead(op, 0));
    GoesOn(r, s, FrHead(op, 0), FrWalk(op, 0, Head(0), 0, 0));
    GoesOn(r, s, FrWalk(op, 0, Head(0), 0, 0), FrMiss(op, 0));
    GoesOn(r, s, FrMiss(op, 0), ApWant(op, 0));
  }

  lemma AppendsData(r: State, s: State, op: Op) returns (t: State)
    requires Solo(s) && op.StoreOp? && Comes(r, At(s, 0, ApWant(op, 0)))
    ensures Solo(t) && t.head == s.head && t.next == s.next && t.recs == s.recs && t.exts == s.exts + [op.data]
    ensures Comes(r, At(t, 0, ApWantIdx(op, 0, |s.exts|)))
  {
    hide Comes, Good, SlotOf, Local;
    Unlocks(r, s, ApWant(op, 0), ApDat(op, 0));
    var a := At(s, 0, ApDat(op, 0));
    Reach(r, a, 0, Go);
    t := AfterApDat(a, 0, ApDat(op, 0));
    assert t == At(t, 0, ApUndat(op, 0, |s.exts|));
    Unlocks(r, t, ApUndat(op, 0, |s.exts|), ApWantIdx(op, 0, |s.exts|));
  }

  /** Steps that only give up or take a lock. */
  lemma Unlocks(r: State, s: State, a: Pc, b: Pc)
    requires Solo(s) && Comes(r, At(s, 0, a))
    requires match a
             case ApWant(op, ptr) => b == ApDat(op, ptr)
             case ApUndat(op, ptr, e) => b == ApWantIdx(op, ptr, e)
             case ApWantIdx(op, ptr, e) => b == ApIdx(op, ptr, e)
             case ApUnidx(op, i) => b == Link(op, i)
             case Done(_) => b == Idle
             case DelWant(op, prev, i, save, k) => b == DelDat(op, prev, i, save, k)
             case Want(op) => b == ReadHead(op)
             case _ => false
    ensures Comes(r, At(s, 0, b))
  {
    hide Comes, Good, SlotOf;
    GoesOn(r, s, a, b);
  }

  lemma AppendsRecord(r: State, s: State, op: Op, e: nat) returns (t: State)
    requires Solo(s) && Comes(r, At(s, 0, ApWantIdx(op, 0, e)))
    ensures Solo(t) && t.head == s.head && t.next == s.next + [0] && t.recs == s.recs + [Info(op.key, e)]
    ensures t.exts == s.exts
    ensures Comes(r, At(t, 0, Link(op, |s.recs|)))
  {
    hide Comes, Good, SlotOf, Local;
    Unlocks(r, s, ApWantIdx(op, 0, e), ApIdx(op, 0, e));
    var a := At(s, 0, ApIdx(op, 0, e));
    Reach(r, a, 0, Go);
    ApIdxGood(a, ApIdx(op, 0, e));
    t := AfterApIdx(a, 0, ApIdx(op, 0, e));
    assert t == At(t, 0, ApUnidx(op, |s.recs|));
    Unlocks(r, t, ApUnidx(op, |s.recs|), Link(op, |s.recs|));
  }

  lemma ApIdxGood(s: State, q: Pc)
    requires Good(s, q) && q.ApIdx?
    ensures Sizes(s) && q.e < |s.exts|
  {
  }

  lemma LinksRecord(r: State, s: State, op: Op, i: nat) returns (t: State)
    requires Solo(s) && Comes(r, At(s, 0, Link(op, i)))
    ensures Solo(t) && t.procs[0].Idle? && t.head == s.head[SlotOf(op) := i + 1]
    ensures t.next == s.next && t.recs == s.recs && t.exts == s.exts
    ensures Comes(r, t) && op.StoreOp? && StoredAs(t, op.key, op.data)
  {
    hide Comes, Good, SlotOf, Local, Content, Tables, Inv;
    var a := At(s, 0, Link(op, i));
    ComesInv(r, a);
    StepContent(a, 0, Go);
    Reach(r, a, 0, Go);
    var b := AfterLink(a, 0, Link(op, i));
    assert b == At(b, 0, Done(op));
    Unlocks(r, b, Done(op), Idle);
    t := At(b, 0, Idle);
    ComesInv(r, b);
    DoneContent(b);
  }

  /** The map has the key, with that data. */
  ghost predicate StoredAs(s: State, key: string, data: string) {
    Tables(s) && key in Content(s) && Content(s)[key] == data
  }

  lemma DoneContent(s: State)
    requires Inv(s) && |s.procs| == 2 && s.procs[0].Done?
    ensures Tables(s) && Tables(At(s, 0, Idle)) && Content(At(s, 0, Idle)) == Content(s)
  {
    hide Inv, Tables, Content, Good;
    assert Enabled(s, 0, Go);
    StepContent(s, 0, Go);
  }

  /** The database with one record. */
  predicate OneRecord(s: State, key: string, data: string) {
    && Solo(s) && s.procs[0].Idle? && s.recs == [Info(key, 0)] && s.exts == [data] && s.next == [0]
    && s.head[SlotOf(FetchOp(key))] == 1 && s.head[0] == 0
  }

  lemma Stored(key: string, data: string) returns (s: State)
    ensures Comes(Initial(2), s) && OneRecord(s, key, data)
    ensures StoredAs(s, key, data)
  {
    hide Comes, Good, Local, StoredAs;
    var (z, op) := (Initial(2), StoreOp(key, data, DB_INSERT));
    InitialInv(2);
    ComesSelf(z);
    Begins(z, z, op);
    FindsNothing(z, z, op);
    FindsNoFree(z, z, op);
    s := AppendsData(z, z, op);
    s := AppendsRecord(z, s, op, 0);
    s := LinksRecord(z, s, op, 0);
    SameSlot(key, op);
  }

  lemma Begins(r: State, s: State, op: Op)
    requires Solo(s) && s.procs[0].Idle? && Comes(r, s)
    ensures Comes(r, At(s, 0, Want(op)))
  {
    hide Comes, Good;
    Reach(r, s, 0, Start(op));
  }

  lemma FindsRecord(r: State, s: State, key: string, old': string, data: string)
    requires Comes(r, s) && OneRecord(s, key, old') && |old'| == |data|
    ensures Comes(r, At(s, 0, Over(StoreOp(key, data, DB_REPLACE), 0)))
  {
    hide Comes, Good, Inv, SlotOf;
    var op := StoreOp(key, data, DB_REPLACE);
    Begins(r, s, op);
    GoesOn(r, s, Want(op), ReadHead(op));
    SameSlot(key, op);
    GoesOn(r, s, ReadHead(op), Walk(op, Head(SlotOf(op)), 1, 0));
    GoesOn(r, s, Walk(op, Head(SlotOf(op)), 1, 0), Over(op, 0));
  }

  lemma SameSlot(key: string, op: Op)
    requires op.key == key
    ensures SlotOf(FetchOp(key)) == SlotOf(op)
  {
  }

  /** Process 1 begins a scan while process 0 does not have the free list. */
  lemma ScanBegins(r: State, s: State)
    requires Comes(r, s) && |s.procs| == 2 && s.procs[1].Idle? && !FreeW(s.procs[0])
    ensures Comes(r, At(s, 1, Scan(0)))
  {
    hide Comes, Good;
    Reach(r, s, 1, StartScan(0));
    var a := At(s, 1, ScanWant(0));
    assert Enabled(a, 1, Go);
    Reach(r, a, 1, Go);
    assert At(a, 1, Scan(0)) == At(s, 1, Scan(0));
  }

  /** It reads record n. */
  lemma ScanReads(r: State, s: State, n: nat)
    requires |s.procs| == 2 && Comes(r, At(s, 1, Scan(n)))
    ensures Comes(r, At(s, 1, if n >= |s.recs| then Idle else if DbState.IsBlank(s.recs[n].key) then Scan(n + 1)
            else ScanDat(n)))
  {
    hide Comes, Good;
    var a := At(s, 1, Scan(n));
    Reach(r, a, 1, Go);
    var q := Local(a, a.procs[1]);
    assert At(a, 1, q) == At(s, 1, q);
  }

  /** Whatever the key, unless blank, and the data: a process that scans meets one that stores the key again. */
  lemma ScanMeetsStore(key: string, old': string, data: string) returns (s: State)
    requires !DbState.IsBlank(key) && |old'| == |data|
    ensures Reached(s) && ScanMeets(s, 1, 0, Overwriting) && s.procs[0].op == StoreOp(key, data, DB_REPLACE)
    ensures Data(s, s.procs[1].n) == old'
  {
    hide Comes, Reached, Good, SlotOf, Initial, StoredAs, Local;
    var r := Initial(2);
    var a := Stored(key, old');
    FindsRecord(r, a, key, old', data);
    var b := At(a, 0, Over(StoreOp(key, data, DB_REPLACE), 0));
    ScanBegins(r, b);
    ScanReads(r, b, 0);
    s := At(b, 1, ScanDat(0));
    ComesReached(2, s);
  }

  /** Of the three ways to write a record's data, exactly the overwrite can happen while a scan reads it. */
  lemma ScanRace(w: Writing)
    ensures (exists s: State, p: nat, r: nat :: Reached(s) && ScanMeets(s, p, r, w)) <==> w.Overwriting?
  {
    hide Reached, Inv;
    forall s: State, p: nat, r: nat | Reached(s) && ScanMeets(s, p, r, w)
      ensures w.Overwriting?
    {
      ReachedInv(s);
      OnlyOverwrites(s, p, r, w);
    }
    if w.Overwriting? {
      assert "k"[0] != ' ';
      var s := ScanMeetsStore("k", "a", "b");
    }
  }

  /** A scan that finds a record in use reads a live one, or one a storing process is about to put on its chain. */
  lemma ScanSeesNoDeletion(s: State, p: nat, i: nat)
    requires Inv(s) && p < |s.procs| && FreeR(s.procs[p]) && i < |s.recs| && !DbState.IsBlank(s.recs[i].key)
    ensures LiveRec(s, i) || exists r: nat :: r < |s.procs| && InHand(s.procs[r]) == Some(i) && Linking(s.procs[r])
  {
    hide KeysOk, ExtOk, Spelled, FixerOk, Position;
    assert RecOk(s, i);
    if s.V.owner[i] == SLOTS {
      assert Compatible(s.procs[p], s.procs[s.holder[i]]) && ProcOk(s, s.holder[i]);
    }
  }

  predicate Busy(s: State, p: nat) {
    p < |s.procs| && !s.procs[p].Idle?
  }

  lemma CanGo(s: State, p: nat)
    requires Inv(s) && Busy(s, p) && (s.procs[p].Want? ==> forall r :: 0 <= r < |s.procs| ==> !HasChain(s.procs[r]))
    requires Blocking(s.procs[p]) ==> forall r :: 0 <= r < |s.procs| ==> s.procs[r].Idle? || Blocking(s.procs[r])
    ensures Enabled(s, p, Go)
  {
    hide Tables, Spelled, FixerOk, ProcOk;
    if Blocking(s.procs[p]) {
      forall r: nat | r < |s.procs| && r != p
        ensures Compatible(Acquired(s.procs[p]), s.procs[r])
      {
        assert Compatible(s.procs[p], s.procs[r]);
      }
    }
  }

  /** No deadlock: when some process is inside an operation, some process inside an operation can take its next step. */
  lemma NoDeadlock(s: State, p: nat)
    requires Inv(s) && Busy(s, p)
    ensures exists r :: Busy(s, r) && Enabled(s, r, Go)
  {
    hide Inv, Enabled;
    var r := p;
    if b: nat :| Busy(s, b) && !Blocking(s.procs[b]) {
      r := b;
    } else if h: nat :| Busy(s, h) && HasChain(s.procs[h]) {
      r := h;
    }
    forall x: nat | x < |s.procs| && s.procs[r].Want?
      ensures !HasChain(s.procs[x])
    {
      assert HasChain(s.procs[x]) ==> Busy(s, x);
    }
    CanGo(s, r);
  }

  // ---------- the map the database stands for ----------

  /** A process has blanked the record's data and not yet its key. */
  predicate Hidden(s: State, i: nat) {
    exists p :: 0 <= p < |s.procs| && Hides(s.procs[p], i)
  }

  predicate Hides(q: Pc, i: nat) {
    (q.DelHead? || q.DelIdx?) && q.i == i
  }

  predicate Visible(s: State, i: nat)
    requires Sizes(s)
  {
    i < |s.recs| && LiveRec(s, i) && !Hidden(s, i)
  }

  /** The keys and data of the records on the chains, but for one whose deletion has begun to write. */
  ghost function Content(s: State): map<string, string>
    requires Sizes(s) && KeysOk(s)
  {
    map i | 0 <= i < |s.recs| && Visible(s, i) :: s.recs[i].key := Data(s, i)
  }

  lemma ContentAt(s: State, i: nat)
    requires Sizes(s) && KeysOk(s) && Visible(s, i)
    ensures s.recs[i].key in Content(s) && Content(s)[s.recs[i].key] == Data(s, i)
  {
    hide Hidden, Data, Sizes;
    forall j: nat | j < |s.recs| && Visible(s, j) && s.recs[j].key == s.recs[i].key
      ensures j == i
    {
      assert LiveRec(s, i) && LiveRec(s, j);
    }
  }

  lemma Where(s: State, key: string) returns (i: nat)
    requires Sizes(s) && KeysOk(s) && key in Content(s)
    ensures Visible(s, i) && s.recs[i].key == key && Content(s)[key] == Data(s, i)
  {
    hide Hidden, Data, Sizes;
    i :| i < |s.recs| && Visible(s, i) && s.recs[i].key == key;
    ContentAt(s, i);
  }

  /** A record not touched is in the map as it was. */
  lemma VisibleSame(s: State, t: State, p: nat, x: nat, i: nat, j: nat)
    requires Tables(s) && p < |s.procs| && Touches(s, t, p, x, i) && j < |s.recs| && j != i
    requires Hides(t.procs[p], j) <==> Hides(s.procs[p], j)
    ensures Visible(t, j) <==> Visible(s, j)
    ensures t.recs[j].key == s.recs[j].key && Data(t, j) == Data(s, j)
  {
    hide Linked, RecOk, ExtOk, KeysOk, Data;
    SameData(s, t, p, x, i, j);
    assert SameRec(s, t, j);
    assert forall r :: 0 <= r < |s.procs| ==> (Hides(t.procs[r], j) <==> Hides(s.procs[r], j));
    assert Hidden(t, j) <==> Hidden(s, j);
  }

  /** The map changes only by the one record touched. */
  lemma TouchedContent(s: State, t: State, p: nat, x: nat, i: nat)
    requires Tables(s) && Tables(t) && p < |s.procs| && Touches(s, t, p, x, i)
    requires |t.recs| == |s.recs| || (i == |s.recs| && |t.recs| == |s.recs| + 1)
    requires forall j: nat :: j != i ==> (Hides(t.procs[p], j) <==> Hides(s.procs[p], j))
    ensures !Visible(s, i) && !Visible(t, i) ==> Content(t) == Content(s)
    ensures Visible(s, i) && !Visible(t, i) ==> Content(t) == Content(s) - {s.recs[i].key}
    ensures !Visible(s, i) && Visible(t, i) ==> Content(t) == Content(s)[t.recs[i].key := Data(t, i)]
    ensures Visible(s, i) && Visible(t, i) && t.recs[i].key == s.recs[i].key ==>
              Content(t) == Content(s)[t.recs[i].key := Data(t, i)]
  {
    hide Touches, Linked, RecOk, ExtOk, Hidden, Data, Hides, Sizes;
    assert Sizes(s) && Sizes(t) by { TableSizes(s); TableSizes(t); }
    forall j: nat | j < |s.recs| && j != i
      ensures j < |t.recs| && (Visible(t, j) <==> Visible(s, j)) && t.recs[j].key == s.recs[j].key
              && Data(t, j) == Data(s, j)
    {
      VisibleSame(s, t, p, x, i, j);
    }
    MapsDiffer(s, t, i);
  }

  lemma TableSizes(s: State)
    requires Tables(s)
    ensures Sizes(s) && KeysOk(s)
  {
  }

  lemma MapsDiffer(s: State, t: State, i: nat)
    requires Sizes(s) && Sizes(t) && KeysOk(s) && KeysOk(t)
    requires |t.recs| == |s.recs| || (i == |s.recs| && |t.recs| == |s.recs| + 1)
    requires forall j: nat :: j < |s.recs| && j != i ==>
               (Visible(t, j) <==> Visible(s, j)) && t.recs[j].key == s.recs[j].key && Data(t, j) == Data(s, j)
    ensures !Visible(s, i) && !Visible(t, i) ==> Content(t) == Content(s)
    ensures Visible(s, i) && !Visible(t, i) ==> Content(t) == Content(s) - {s.recs[i].key}
    ensures !Visible(s, i) && Visible(t, i) ==> Content(t) == Content(s)[t.recs[i].key := Data(t, i)]
    ensures Visible(s, i) && Visible(t, i) && t.recs[i].key == s.recs[i].key ==>
              Content(t) == Content(s)[t.recs[i].key := Data(t, i)]
  {
    hide Hidden, Data, Sizes, Content;
    if Visible(s, i) {
      ContentAt(s, i);
    }
    if Visible(t, i) {
      ContentAt(t, i);
    }
    forall key | key in Content(s) && !(Visible(s, i) && key == s.recs[i].key)
      ensures key in Content(t) && Content(t)[key] == Content(s)[key] && (Visible(t, i) ==> key != t.recs[i].key)
    {
      var j := Where(s, key);
      ContentAt(t, j);
      if Visible(t, i) {
        OneKey(t, i, j);
      }
    }
    forall key | key in Content(t) && !(Visible(t, i) && key == t.recs[i].key)
      ensures key in Content(s) && (Visible(s, i) ==> key != s.recs[i].key)
    {
      var j := Where(t, key);
      ContentAt(s, j);
      if Visible(s, i) {
        OneKey(s, i, j);
      }
    }
  }

  lemma OneKey(s: State, i: nat, j: nat)
    requires Sizes(s) && KeysOk(s) && Visible(s, i) && Visible(s, j) && i != j
    ensures s.recs[i].key != s.recs[j].key
  {
  }

  /** A process with its chain locked sees the record it found as the map has it. */
  lemma ChainSees(s: State, p: nat, i: nat)
    requires Inv(s) && p < |s.procs| && HasChain(s.procs[p]) && i < |s.recs| && s.V.owner[i] == SlotOf(s.procs[p].op)
    requires !Hides(s.procs[p], i)
    ensures Visible(s, i)
  {
    hide KeysOk, ExtOk, RecOk, Spelled, FixerOk, Linked, Contents, DataFacts;
    forall r | 0 <= r < |s.procs|
      ensures !Hides(s.procs[r], i)
    {
      assert ProcOk(s, r);
      if r != p {
        assert Compatible(s.procs[p], s.procs[r]);
        if Hides(s.procs[r], i) {
          ListOwner(s, SlotOf(s.procs[r].op), s.procs[r].k);
        }
      }
    }
  }

  /** A fetch that reads data reads what the map has for its key at that moment. */
  lemma FetchIsTrue(s: State, p: nat)
    requires Inv(s) && p < |s.procs| && s.procs[p].FetchDat?
    ensures Sizes(s) && KeysOk(s)
    ensures var q := s.procs[p]; q.op.key in Content(s) && Data(s, q.i) == Content(s)[q.op.key]
  {
    hide KeysOk, ExtOk, RecOk, Spelled, FixerOk, Linked, DataFacts, Exclusive, Content;
    assert ProcOk(s, p);
    var q := s.procs[p];
    var k :| 0 <= k < |s.V.lists[SlotOf(q.op)]| && s.V.lists[SlotOf(q.op)][k] == q.i;
    ListOwner(s, SlotOf(q.op), k);
    ChainSees(s, p, q.i);
    ContentAt(s, q.i);
  }

  /** One that comes to the end of its chain is right that the map does not have the key. */
  lemma MissIsTrue(s: State, p: nat)
    requires Inv(s) && p < |s.procs| && s.procs[p].Walk? && s.procs[p].cur == 0
    ensures Sizes(s) && KeysOk(s) && s.procs[p].op.key !in Content(s)
  {
    hide Exclusive, KeysOk, ExtOk, Spelled, FixerOk, Linked, DataFacts, Content;
    assert ProcOk(s, p);
    AbsentFromMap(s, s.procs[p].op.key);
  }

  lemma AbsentFromMap(s: State, key: string)
    requires Tables(s) && Absent(s, DbState.ChainOf(key), key)
    ensures key !in Content(s)
  {
    hide Linked, RecOk, ExtOk, Absent, Content;
    if key in Content(s) {
      var j := Where(s, key);
      AbsentEverywhere(s, key, j);
    }
  }

  // How each step changes the map.

  lemma PutTouches(s: State, p: nat, q': Pc, x: nat, i: nat, data: string, olds: map<string, string>)
    requires Tables(s) && p < |s.procs| && i < |s.recs| && s.recs[i].ext < |s.exts|
    ensures Touches(s, At(Put(s, i, data, olds), p, q'), p, x, i)
  {
    hide Linked, KeysOk, ExtOk;
    assert RecOk(s, i);
  }

  lemma OverContent(s: State, p: nat)
    requires Inv(s) && p < |s.procs| && s.procs[p].Over? && Good(s, s.procs[p])
    ensures var (t, q) := (AfterOver(s, p, s.procs[p]), s.procs[p]);
            Tables(s) && Tables(t) && q.op.key in Content(s) && Content(t) == Content(s)[q.op.key := q.op.data]
  {
    hide KeysOk, ExtOk, RecOk, Spelled, FixerOk, Linked, DataFacts, Exclusive, Content, Touches, Visible;
    assert ProcOk(s, p);
    OverKeeps(s, p);
    var (q, t) := (s.procs[p], AfterOver(s, p, s.procs[p]));
    var k :| 0 <= k < |s.V.lists[SlotOf(q.op)]| && s.V.lists[SlotOf(q.op)][k] == q.i;
    ListOwner(s, SlotOf(q.op), k);
    ChainSees(s, p, q.i);
    ChainSees(t, p, q.i);
    ContentAt(s, q.i);
    PutTouches(s, p, Done(q.op), SlotOf(q.op), q.i, q.op.data, s.olds);
    TouchedContent(s, t, p, SlotOf(q.op), q.i);
  }

  lemma DelDatContent(s: State, p: nat)
    requires Inv(s) && p < |s.procs| && s.procs[p].DelDat? && Good(s, s.procs[p])
    ensures var (t, q) := (AfterDelDat(s, p, s.procs[p]), s.procs[p]);
            && Tables(s) && Tables(t) && q.op.key in Content(s) && Content(s)[q.op.key] == Data(s, q.i)
            && Content(t) == Content(s) - {q.op.key}
  {
    hide KeysOk, ExtOk, RecOk, Spelled, FixerOk, Linked, DataFacts, Exclusive, Content, Touches;
    assert ProcOk(s, p);
    DelDatKeeps(s, p);
    var (q, t) := (s.procs[p], AfterDelDat(s, p, s.procs[p]));
    ListOwner(s, SlotOf(q.op), q.k);
    ChainSees(s, p, q.i);
    ContentAt(s, q.i);
    assert Hides(t.procs[p], q.i) && Hidden(t, q.i);
    PutTouches(s, p, t.procs[p], SlotOf(q.op), q.i, DbState.Blanks(|Data(s, q.i)|), t.olds);
    TouchedContent(s, t, p, SlotOf(q.op), q.i);
  }

  lemma LinkContent(s: State, p: nat)
    requires Inv(s) && p < |s.procs| && s.procs[p].Link? && Good(s, s.procs[p])
    ensures var (t, q) := (AfterLink(s, p, s.procs[p]), s.procs[p]);
            && Tables(s) && Tables(t) && q.op.StoreOp? && q.op.key !in Content(s)
            && Content(t) == Content(s)[q.op.key := q.op.data]
  {
    hide KeysOk, ExtOk, RecOk, Spelled, FixerOk, Linked, Exclusive, Content, Touches, Absent;
    assert ProcOk(s, p);
    LinkKeeps(s, p);
    LinkTouches(s, p);
    var (q, t) := (s.procs[p], AfterLink(s, p, s.procs[p]));
    AbsentFromMap(s, q.op.key);
    ChainSees(t, p, q.i);
    TouchedContent(s, t, p, SlotOf(q.op), q.i);
  }

  lemma DelIdxContent(s: State, p: nat)
    requires Inv(s) && p < |s.procs| && s.procs[p].DelIdx? && Good(s, s.procs[p])
    ensures var t := AfterDelIdx(s, p, s.procs[p]); Tables(s) && Tables(t) && Content(t) == Content(s)
  {
    hide KeysOk, ExtOk, RecOk, Spelled, FixerOk, Linked, DataFacts, Exclusive, Content, Touches, Facts;
    DelIdxKeeps(s, p);
    DelIdxTouches(s, p);
    var q := s.procs[p];
    assert Hides(q, q.i) && Hidden(s, q.i);
    TouchedContent(s, AfterDelIdx(s, p, q), p, SlotOf(q.op), q.i);
  }

  lemma FreeContent(s: State, p: nat)
    requires Inv(s) && p < |s.procs| && (s.procs[p].DelFree? || s.procs[p].FrUnlink?) && Good(s, s.procs[p])
    ensures var q := s.procs[p];
            var t := if q.DelFree? then AfterDelFree(s, p, q) else AfterFrUnlink(s, p, q);
            Tables(s) && Tables(t) && Content(t) == Content(s)
  {
    hide KeysOk, ExtOk, RecOk, Spelled, FixerOk, Linked, DataFacts, Exclusive, Content, Touches, Hidden, Contents;
    var q := s.procs[p];
    assert ProcOk(s, p);
    if q.DelFree? {
      DelFreeKeeps(s, p);
      DelFreeTouches(s, p);
      TouchedContent(s, AfterDelFree(s, p, q), p, 0, q.i);
    } else {
      FrUnlinkKeeps(s, p);
      FrUnlinkTouches(s, p);
      ListOwner(s, 0, q.k);
      TouchedContent(s, AfterFrUnlink(s, p, q), p, 0, q.i);
    }
  }

  lemma HandContent(s: State, p: nat)
    requires Inv(s) && p < |s.procs| && (s.procs[p].ReDat? || s.procs[p].ReIdx? || s.procs[p].ApIdx?)
             && Good(s, s.procs[p])
    ensures var q := s.procs[p];
            var t := if q.ReDat? then AfterReDat(s, p, q) else if q.ReIdx? then AfterReIdx(s, p, q)
                else AfterApIdx(s, p, q);
            Tables(s) && Tables(t) && Content(t) == Content(s)
  {
    hide KeysOk, ExtOk, RecOk, Spelled, FixerOk, Linked, Facts, Exclusive, Content, Touches, Hidden;
    var q := s.procs[p];
    assert ProcOk(s, p);
    if q.ReDat? {
      ReDatKeeps(s, p);
      PutTouches(s, p, ReIdx(q.op, q.ptr, q.i), SLOTS, q.i, q.op.data, s.olds);
      TouchedContent(s, AfterReDat(s, p, q), p, SLOTS, q.i);
    } else if q.ReIdx? {
      ReIdxKeeps(s, p);
      ReIdxTouches(s, p);
      TouchedContent(s, AfterReIdx(s, p, q), p, SLOTS, q.i);
    } else {
      ApIdxKeeps(s, p);
      ApIdxTouches(s, p);
      TouchedContent(s, AfterApIdx(s, p, q), p, SLOTS, |s.recs|);
    }
  }

  /** Steps that change no record's text. */
  lemma PlainContent(s: State, t: State, p: nat)
    requires Tables(s) && Tables(t) && p < |s.procs| && t.V == s.V && t.recs == s.recs && s.exts <= t.exts
    requires |t.procs| == |s.procs| && t.procs == s.procs[p := t.procs[p]]
    requires t.holder == s.holder && s.extOwner <= t.extOwner
    requires forall i: nat :: Hides(t.procs[p], i) <==> Hides(s.procs[p], i)
    ensures Content(t) == Content(s)
  {
    hide Linked, KeysOk, RecOk, ExtOk, Content;
    assert Touches(s, t, p, SLOTS, |s.recs|);
    TouchedContent(s, t, p, SLOTS, |s.recs|);
  }

  lemma LocalHides(s: State, q: Pc, i: nat)
    requires Good(s, q) && !IsShared(q)
    ensures Hides(Local(s, q), i) <==> Hides(q, i)
  {
  }

  lemma QuietContent(s: State, p: nat, c: Choice)
    requires Inv(s) && Enabled(s, p, c) && Good(s, s.procs[p])
    requires !IsShared(s.procs[p]) || s.procs[p].DelPrev? || s.procs[p].ApDat?
    ensures Tables(s) && Tables(Step(s, p, c)) && Content(Step(s, p, c)) == Content(s)
  {
    hide Linked, KeysOk, RecOk, ExtOk, Content, Exclusive, Spelled, FixerOk, ProcOk, Compatible, Good, Local, Hides;
    StepInv(s, p, c);
    forall i: nat
      ensures Hides(Step(s, p, c).procs[p], i) <==> Hides(s.procs[p], i)
    {
      QuietHides(s, p, c, i);
    }
    PlainContent(s, Step(s, p, c), p);
  }

  lemma QuietHides(s: State, p: nat, c: Choice, i: nat)
    requires Enabled(s, p, c) && Good(s, s.procs[p])
    requires !IsShared(s.procs[p]) || s.procs[p].DelPrev? || s.procs[p].ApDat?
    ensures p < |Step(s, p, c).procs| && (Hides(Step(s, p, c).procs[p], i) <==> Hides(s.procs[p], i))
  {
    hide Local, Good;
    if c.Go? && !IsShared(s.procs[p]) {
      LocalHides(s, s.procs[p], i);
    }
  }

  /**
   The map of the records changes only when a store overwrites data or writes its chain's slot, and when a deletion, or
   the first half of a replacement by data of another length, begins to write; then it changes by exactly that key.
   */
  lemma StepContent(s: State, p: nat, c: Choice)
    requires Inv(s) && Enabled(s, p, c)
    ensures Good(s, s.procs[p]) && Tables(s) && Tables(Step(s, p, c))
    ensures var (t, q) := (Step(s, p, c), s.procs[p]);
            if q.Over? || q.Link? then
              && q.op.StoreOp? && Content(t) == Content(s)[q.op.key := q.op.data]
              && (q.Over? <==> q.op.key in Content(s))
            else if q.DelDat? then
              q.op.key in Content(s) && Content(s)[q.op.key] == Data(s, q.i) && Content(t) == Content(s) - {q.op.key}
            else Content(t) == Content(s)
  {
    hide Tables, Exclusive, FixerOk, Spelled, ProcOk, Compatible, Local, Content;
    hide AfterOver, AfterDelDat, AfterReDat, AfterDelIdx, AfterDelFree, AfterFrUnlink, AfterReIdx, AfterApIdx,
        AfterLink;
    StepsDefined(s, p);
    match s.procs[p]
    case Over(_, _) => OverContent(s, p);
    case Link(_, _) => LinkContent(s, p);
    case DelDat(_, _, _, _, _) => DelDatContent(s, p);
    case DelIdx(_, _, _, _, _, _) => DelIdxContent(s, p);
    case DelFree(_, _, _, _, _) => FreeContent(s, p);
    case FrUnlink(_, _, _, _, _, _) => FreeContent(s, p);
    case ReDat(_, _, _) => HandContent(s, p);
    case ReIdx(_, _, _) => HandContent(s, p);
    case ApIdx(_, _, _) => HandContent(s, p);
    case _ => QuietContent(s, p, c);
  }

  // ---------- each operation has one step ----------

  // A replacement by data of another length deletes and then links a new record, so it changes Content twice.  With
  // the old data counted in until the new record is linked, every operation has one step.

  /** A store that has deleted its key's old record and not yet linked the new one, if its key is in olds. */
  predicate Renewing(q: Pc, key: string) {
    && (q.DelHead? || q.DelIdx? || Fixing(q) || q.DelUnlock? || Appending(q) || Linking(q))
    && q.op.StoreOp? && q.op.key == key
  }

  predicate Appending(q: Pc) {
    q.RpHead? || q.ApWant? || q.ApDat? || q.ApUndat? || q.ApWantIdx? || q.ApIdx?
  }

  /** Old data is kept only of keys that are not in Content and whose store is under way. */
  ghost predicate OldsOk(s: State)
    requires Tables(s)
  {
    forall key <- s.olds :: key !in Content(s) && Renewed(s, key)
  }

  ghost predicate Renewed(s: State, key: string) {
    exists r: nat :: r < |s.procs| && Renewing(s.procs[r], key)
  }

  /** What the database holds. */
  ghost function Meaning(s: State): map<string, string>
    requires Tables(s)
  {
    Content(s) + s.olds
  }

  function NextOlds(s: State, q: Pc): map<string, string> {
    if q.DelDat? && q.op.StoreOp? then s.olds[q.op.key := Data(s, q.i)]
    else if q.Link? then s.olds - {q.op.key} else s.olds
  }

  lemma StepShape(s: State, p: nat, c: Choice)
    requires Enabled(s, p, c) && Good(s, s.procs[p])
    ensures var t := Step(s, p, c);
            && |t.procs| == |s.procs| && (forall r: nat :: r < |s.procs| && r != p ==> t.procs[r] == s.procs[r])
            && t.olds == NextOlds(s, s.procs[p])
  {
    hide Local, Good, Found, Shared, Compatible;
    if c.Go? && IsShared(s.procs[p]) {
      SharedShape(s, p, s.procs[p]);
    }
  }

  lemma SharedShape(s: State, p: nat, q: Pc)
    requires p < |s.procs| && Good(s, q) && IsShared(q)
    ensures var t := Shared(s, p, q);
            |t.procs| == |s.procs| && t.procs == s.procs[p := t.procs[p]] && t.olds == NextOlds(s, q)
  {
    hide Found, SlotOf, Unlink, Push, Set, Grow, DbState.Blanks, Data;
  }

  /** Steps after the deletion and before the slot is written. */
  lemma StaysRenewing(s: State, p: nat, c: Choice, key: string)
    requires Enabled(s, p, c) && Good(s, s.procs[p]) && Renewing(s.procs[p], key) && !s.procs[p].Link?
    ensures p < |Step(s, p, c).procs| && Renewing(Step(s, p, c).procs[p], key)
  {
    hide Found, SlotOf, Unlink, Push, Set, Grow, DbState.Blanks, Data, Compatible, AfterRead, AfterFree;
  }

  lemma StepOlds(s: State, p: nat, c: Choice)
    requires Inv(s) && Enabled(s, p, c) && OldsOk(s)
    ensures Good(s, s.procs[p]) && Inv(Step(s, p, c)) && OldsOk(Step(s, p, c))
  {
    hide Inv, Tables, Content, Good, Step, Renewing, Enabled;
    assert p < |s.procs| by { EnabledProc(s, p, c); }
    StepInv(s, p, c);
    StepContent(s, p, c);
    StepShape(s, p, c);
    var (q, t) := (s.procs[p], Step(s, p, c));
    TableSizes(s);
    TableSizes(t);
    forall key <- t.olds ensures key !in Content(t) && Renewed(t, key) {
      if q.DelDat? && q.op.StoreOp? && key == q.op.key {
        DeletionBegins(s, p, c);
      } else {
        assert key in s.olds && key !in Content(s);
        var r: nat :| r < |s.procs| && Renewing(s.procs[r], key);
        if r == p && !q.Link? {
          StaysRenewing(s, p, c, key);
        }
        if r == p && q.Link? {
          RenewingKey(q, key);
        }
        assert Renewing(t.procs[r], key);
      }
    }
  }

  lemma EnabledProc(s: State, p: nat, c: Choice)
    requires Enabled(s, p, c)
    ensures p < |s.procs|
  {
  }

  lemma RenewingKey(q: Pc, key: string)
    requires Renewing(q, key)
    ensures HasChain(q) && q.op.StoreOp? && q.op.key == key && !q.Walk?
  {
  }

  lemma DeletionBegins(s: State, p: nat, c: Choice)
    requires Enabled(s, p, c) && Good(s, s.procs[p]) && s.procs[p].DelDat? && s.procs[p].op.StoreOp?
    ensures Renewed(Step(s, p, c), s.procs[p].op.key)
  {
    hide Found;
    assert Renewing(Step(s, p, c).procs[p], s.procs[p].op.key);
  }

  lemma InitialOlds(n: nat)
    ensures Inv(Initial(n)) && OldsOk(Initial(n))
  {
    InitialInv(n);
  }

  /** So in every state of every run. */
  lemma {:induction false} RunOlds(run: seq<State>, moves: seq<Move>, k: nat)
    requires IsRun(run, moves) && k < |run|
    ensures Inv(run[k]) && OldsOk(run[k])
  {
    hide Inv, OldsOk;
    if k == 0 {
      InitialOlds(|run[0].procs|);
    } else {
      RunOlds(run, moves, k - 1);
      assert Moves(run[k - 1], moves[k - 1], run[k]);
      StepOlds(run[k - 1], moves[k - 1].p, moves[k - 1].c);
    }
  }

  /** The step at which an operation takes effect. */
  predicate Effective(q: Pc) {
    q.Over? || q.Link? || (q.DelDat? && q.op.DeleteOp?)
  }

  /**
   A store puts its data under its key and a deletion takes its key out, each in one step; no other step does
   anything.
   */
  lemma StepMeaning(s: State, p: nat, c: Choice)
    requires Inv(s) && Enabled(s, p, c) && OldsOk(s)
    ensures Good(s, s.procs[p]) && Tables(Step(s, p, c))
    ensures var (t, q) := (Step(s, p, c), s.procs[p]);
            if !Effective(q) then Meaning(t) == Meaning(s)
            else if q.DelDat? then q.op.key in Meaning(s) && Meaning(t) == Meaning(s) - {q.op.key}
            else q.op.StoreOp? && Meaning(t) == Meaning(s)[q.op.key := q.op.data]
  {
    hide Inv, Tables, Content, Good, Step, Enabled, Renewed;
    assert p < |s.procs| by { EnabledProc(s, p, c); }
    StepContent(s, p, c);
    StepShape(s, p, c);
    TableSizes(s);
    DeletersWrite(s, p);
    var q := s.procs[p];
    if q.Over? || q.Link? || q.DelDat? {
      Merges(Content(s), s.olds, q.op.key, if q.DelDat? then Data(s, q.i) else q.op.data);
    }
  }

  lemma DeletersWrite(s: State, p: nat)
    requires Inv(s) && p < |s.procs|
    ensures s.procs[p].DelDat? ==> s.procs[p].op.StoreOp? || s.procs[p].op.DeleteOp?
  {
    hide Tables, Exclusive, FixerOk, Spelled, Facts;
    TablesOf(s);
    assert ProcOk(s, p);
  }

  lemma Merges(c: map<string, string>, o: map<string, string>, k: string, d: string)
    ensures c[k := d] + (o - {k}) == (c + o)[k := d]
    ensures k !in o ==> c[k := d] + o == (c + o)[k := d] && (c - {k}) + o == (c + o) - {k}
    ensures k in c && k !in o && c[k] == d ==> (c - {k}) + o[k := d] == c + o
  {
  }

  /** An operation past the step at which it takes effect. */
  predicate Spent(q: Pc) {
    q.Done? || ((q.DelHead? || q.DelIdx? || Fixing(q) || q.DelUnlock?) && q.op.DeleteOp?)
  }

  lemma SpentStep(s: State, m: Move, t: State, p: nat)
    requires Moves(s, m, t) && p < |s.procs|
    ensures |t.procs| == |s.procs|
    ensures Spent(s.procs[p]) && !t.procs[p].Idle? ==> Spent(t.procs[p])
    ensures m.p == p && Effective(s.procs[p]) ==> Spent(t.procs[p])
  {
    hide Step, Good, Spent, Effective;
    StepShape(s, m.p, m.c);
    if m.p == p && (Spent(s.procs[p]) || Effective(s.procs[p])) {
      SpentNext(s, p, m.c);
    }
  }

  lemma SpentNext(s: State, p: nat, c: Choice)
    requires Enabled(s, p, c) && Good(s, s.procs[p]) && (Spent(s.procs[p]) || Effective(s.procs[p]))
    ensures var t := Step(s, p, c); p < |t.procs| && (t.procs[p].Idle? || Spent(t.procs[p]))
    ensures Effective(s.procs[p]) ==> Spent(Step(s, p, c).procs[p])
  {
    hide Found, SlotOf, Unlink, Push, Set, Grow, Compatible, Shared, Good;
    var q := s.procs[p];
    if IsShared(q) {
      SpentShared(s, p, q);
    }
  }

  lemma SpentShared(s: State, p: nat, q: Pc)
    requires p < |s.procs| && Good(s, q) && IsShared(q) && (Spent(q) || Effective(q))
    ensures p < |Shared(s, p, q).procs| && Spent(Shared(s, p, q).procs[p])
  {
    hide Found, SlotOf, Unlink, Push, Set, Grow, DbState.Blanks, Data;
  }

  lemma {:induction false} StaysSpent(run: seq<State>, moves: seq<Move>, p: nat, a: nat, b: nat)
    requires IsRun(run, moves) && a < b <= |moves| && moves[a].p == p < |run[a].procs| && Effective(run[a].procs[p])
    requires forall k :: a < k <= b && p < |run[k].procs| ==> !run[k].procs[p].Idle?
    ensures p < |run[b].procs| && Spent(run[b].procs[p])
    decreases b
  {
    hide Moves, Effective, Spent;
    if b > a + 1 {
      StaysSpent(run, moves, p, a, b - 1);
    }
    SpentStep(run[b - 1], moves[b - 1], run[b], p);
  }

  /** No operation takes effect twice. */
  lemma EffectOnce(run: seq<State>, moves: seq<Move>, p: nat, a: nat, b: nat)
    requires IsRun(run, moves) && a < b < |moves| && moves[a].p == p < |run[a].procs| && Effective(run[a].procs[p])
    requires forall k :: a < k <= b && p < |run[k].procs| ==> !run[k].procs[p].Idle?
    ensures p < |run[b].procs| && !Effective(run[b].procs[p])
  {
    StaysSpent(run, moves, p, a, b);
  }

  /** A fetch reads what the database holds, although a replacement may be half done. */
  lemma FetchMeansIt(s: State, p: nat)
    requires Inv(s) && OldsOk(s) && p < |s.procs| && s.procs[p].FetchDat?
    ensures var q := s.procs[p]; q.op.key in Meaning(s) && Data(s, q.i) == Meaning(s)[q.op.key]
  {
    hide Inv, Tables, Content, Renewed;
    FetchIsTrue(s, p);
  }

  /** And a search that finds nothing is right: its lock keeps it from meeting a key half replaced. */
  lemma MissMeansIt(s: State, p: nat)
    requires Inv(s) && OldsOk(s) && p < |s.procs| && s.procs[p].Walk? && s.procs[p].cur == 0
    ensures s.procs[p].op.key !in Meaning(s)
  {
    hide Inv, Tables, Content;
    MissIsTrue(s, p);
    TablesOf(s);
    var key := s.procs[p].op.key;
    if key in s.olds {
      var r: nat :| r < |s.procs| && Renewing(s.procs[r], key);
      RenewingKey(s.procs[r], key);
      ChainAlone(s, p, r);
    }
  }

  /** Two processes at work on one key are not both there if one of them stores. */
  lemma ChainAlone(s: State, p: nat, r: nat)
    requires Inv(s) && p < |s.procs| && r < |s.procs| && p != r && HasChain(s.procs[p]) && HasChain(s.procs[r])
    requires s.procs[r].op.StoreOp?
    ensures s.procs[p].op.key != s.procs[r].op.key
  {
    hide Tables, Spelled, FixerOk, ProcOk;
    assert Compatible(s.procs[p], s.procs[r]);
  }

  // A scan locks no chain: when it finds a key nowhere although the database holds it.

  predicate Nowhere(s: State, key: string) {
    forall i: nat :: i < |s.recs| ==> s.recs[i].key != key
  }

  /** A store of the key has deleted the old record and not yet appended the new one. */
  ghost predicate BetweenRecords(s: State, key: string) {
    key in s.olds && exists r: nat :: r < |s.procs| && Appending(s.procs[r]) && Renewing(s.procs[r], key)
  }

  /** Exactly then no record has the key. */
  lemma ScanMisses(s: State, p: nat, key: string)
    requires Inv(s) && OldsOk(s) && p < |s.procs| && FreeR(s.procs[p]) && key in Meaning(s) && !DbState.IsBlank(key)
    ensures Nowhere(s, key) <==> BetweenRecords(s, key)
  {
    hide Inv, Tables, Content, Renewing, Appending;
    TablesOf(s);
    if BetweenRecords(s, key) {
      var r: nat :| r < |s.procs| && Appending(s.procs[r]) && Renewing(s.procs[r], key);
      forall i: nat | i < |s.recs| ensures s.recs[i].key != key {
        NotThere(s, p, r, i, key);
      }
    } else if Nowhere(s, key) {
      SomewhereElse(s, p, key);
    }
  }

  lemma TablesOf(s: State)
    requires Inv(s)
    ensures Tables(s) && Sizes(s) && KeysOk(s)
  {
  }

  /** While the new record is not appended, nothing else has the key. */
  lemma NotThere(s: State, p: nat, r: nat, i: nat, key: string)
    requires Inv(s) && p < |s.procs| && r < |s.procs| && FreeR(s.procs[p]) && i < |s.recs| && !DbState.IsBlank(key)
    requires Appending(s.procs[r]) && Renewing(s.procs[r], key)
    ensures s.recs[i].key != key
  {
    hide ExtOk, KeysOk, Spelled, FixerOk, Linked, Position, DataFacts;
    assert RecOk(s, i) && ProcOk(s, r);
    OwnerBound(s, i);
    if s.V.owner[i] == SLOTS {
      var h := s.holder[i];
      assert ProcOk(s, h) && (h != p ==> Compatible(s.procs[p], s.procs[h]))
          && (h != r ==> Compatible(s.procs[r], s.procs[h]));
    } else if LiveRec(s, i) {
      AbsentEverywhere(s, key, i);
    }
  }

  lemma OwnerBound(s: State, i: nat)
    requires Sizes(s) && Linked(s.V) && i < |s.recs|
    ensures s.V.owner[i] <= SLOTS
  {
    assert i < |s.V.owner|;
  }

  lemma SomewhereElse(s: State, p: nat, key: string)
    requires Inv(s) && OldsOk(s) && p < |s.procs| && FreeR(s.procs[p]) && key in Meaning(s) && Nowhere(s, key)
    ensures BetweenRecords(s, key)
  {
    hide Tables, Content, Spelled, FixerOk, ProcOk, Nowhere;
    TablesOf(s);
    if key in Content(s) {
      var i := Where(s, key);
      SeenSomewhere(s, i, key);
    } else {
      var r: nat :| r < |s.procs| && Renewing(s.procs[r], key);
      assert r != p ==> Compatible(s.procs[p], s.procs[r]);
      if Linking(s.procs[r]) {
        LinkingHas(s, r, key);
      }
    }
  }

  lemma SeenSomewhere(s: State, i: nat, key: string)
    requires i < |s.recs| && s.recs[i].key == key
    ensures !Nowhere(s, key)
  {
  }

  lemma LinkingHas(s: State, r: nat, key: string)
    requires Inv(s) && r < |s.procs| && Linking(s.procs[r]) && s.procs[r].op.key == key
    ensures !Nowhere(s, key)
  {
    hide ExtOk, KeysOk, Spelled, FixerOk, Linked, Position, DataFacts, Exclusive;
    assert ProcOk(s, r);
    SeenSomewhere(s, s.procs[r].i, key);
  }

  // Such a scan, of a key that is stored before and after it.

  function Replacing(key: string, data: string): Op { StoreOp(key, data, DB_REPLACE) }

  ghost predicate Means(s: State, key: string, data: string) {
    Tables(s) && key in Meaning(s) && Meaning(s)[key] == data
  }

  lemma OldMeans(s: State, key: string)
    requires Inv(s) && key in s.olds
    ensures Means(s, key, s.olds[key])
  {
    hide Content;
    TablesOf(s);
  }

  lemma StartsDeleting(r: State, s: State, key: string, old': string, data: string)
    requires Comes(r, s) && OneRecord(s, key, old') && |old'| != |data|
    ensures var op := Replacing(key, data); Comes(r, At(s, 0, DelDat(op, Head(SlotOf(op)), 0, 0, 0)))
  {
    hide Comes, Good, Inv, SlotOf;
    var op := Replacing(key, data);
    Begins(r, s, op);
    GoesOn(r, s, Want(op), ReadHead(op));
    SameSlot(key, op);
    GoesOn(r, s, ReadHead(op), Walk(op, Head(SlotOf(op)), 1, 0));
    GoesOn(r, s, Walk(op, Head(SlotOf(op)), 1, 0), DelWant(op, Head(SlotOf(op)), 0, 0, 0));
    Unlocks(r, s, DelWant(op, Head(SlotOf(op)), 0, 0, 0), DelDat(op, Head(SlotOf(op)), 0, 0, 0));
  }

  lemma BlanksData(r: State, s: State, op: Op) returns (t: State)
    requires Solo(s) && op.StoreOp? && Comes(r, At(s, 0, DelDat(op, Head(SlotOf(op)), 0, 0, 0)))
    ensures Solo(t) && t.head == s.head && t.recs == s.recs && |t.exts| == |s.exts|
            && t.olds == s.olds[op.key := Data(s, 0)]
    ensures Comes(r, At(t, 0, DelIdx(op, Head(SlotOf(op)), 0, 0, 0, s.head[0])))
  {
    hide Comes, Good, SlotOf, Local;
    var q := DelDat(op, Head(SlotOf(op)), 0, 0, 0);
    var a := At(s, 0, q);
    Reach(r, a, 0, Go);
    DelDatGood(a, q);
    t := AfterDelDat(a, 0, q);
    assert t == At(t, 0, DelHead(op, Head(SlotOf(op)), 0, 0, 0));
    ReadsFree(r, t, op);
  }

  lemma DelDatGood(s: State, q: Pc)
    requires Good(s, q) && q.DelDat?
    ensures Sizes(s) && q.i < |s.recs| && s.recs[q.i].ext < |s.exts|
  {
  }

  lemma ReadsFree(r: State, s: State, op: Op)
    requires Solo(s) && Comes(r, At(s, 0, DelHead(op, Head(SlotOf(op)), 0, 0, 0)))
    ensures Comes(r, At(s, 0, DelIdx(op, Head(SlotOf(op)), 0, 0, 0, s.head[0])))
  {
    hide Comes, Good, SlotOf;
    GoesOn(r, s, DelHead(op, Head(SlotOf(op)), 0, 0, 0), DelIdx(op, Head(SlotOf(op)), 0, 0, 0, s.head[0]));
  }

  lemma BlanksRecord(r: State, s: State, op: Op, fh: nat) returns (t: State)
    requires Solo(s) && |s.recs| == 1 && Comes(r, At(s, 0, DelIdx(op, Head(SlotOf(op)), 0, 0, 0, fh)))
    ensures Solo(t) && t.head == s.head && |t.recs| == 1 && DbState.IsBlank(t.recs[0].key) && |t.exts| == |s.exts|
    ensures t.olds == s.olds
    ensures Comes(r, At(t, 0, DelFree(op, Head(SlotOf(op)), 0, 0, 0)))
  {
    hide Comes, Good, SlotOf, Local, Unlink, Set;
    var q := DelIdx(op, Head(SlotOf(op)), 0, 0, 0, fh);
    var a := At(s, 0, q);
    Reach(r, a, 0, Go);
    t := AfterDelIdx(a, 0, q);
    assert t == At(t, 0, DelFree(op, Head(SlotOf(op)), 0, 0, 0));
  }

  lemma WritesPointers(r: State, s: State, op: Op) returns (t: State)
    requires Solo(s) && op.StoreOp? && Comes(r, At(s, 0, DelFree(op, Head(SlotOf(op)), 0, 0, 0)))
    ensures Solo(t) && t.head[SlotOf(op)] == 0 && t.recs == s.recs && t.exts == s.exts && t.olds == s.olds
    ensures Comes(r, At(t, 0, DelUnlock(op)))
  {
    hide Comes, Good, SlotOf, Local, Push;
    var q := DelFree(op, Head(SlotOf(op)), 0, 0, 0);
    var a := At(s, 0, q);
    Reach(r, a, 0, Go);
    var b := AfterDelFree(a, 0, q);
    var q' := DelPrev(op, Head(SlotOf(op)), 0, 0, 0);
    assert b.procs[0] == q' && Enabled(b, 0, Go);
    Reach(r, b, 0, Go);
    t := AfterDelPrev(b, 0, q');
    assert t == At(t, 0, DelUnlock(op));
  }

  lemma TurnsToAppend(r: State, s: State, op: Op)
    requires Solo(s) && op.StoreOp? && s.head[SlotOf(op)] == 0 && Comes(r, At(s, 0, DelUnlock(op)))
    ensures Comes(r, At(s, 0, ApWant(op, 0)))
  {
    hide Comes, Good, SlotOf;
    GoesOn(r, s, DelUnlock(op), RpHead(op));
    GoesOn(r, s, RpHead(op), ApWant(op, 0));
  }

  /** A whole scan by process p, while nobody else moves, that meets no record in use. */
  ghost predicate ScansNothing(s: State, p: nat) {
    exists states: seq<State>, moves: seq<Move> ::
      && Path(states, moves) && |moves| > 0 && states[0] == s && states[|moves|] == s
         && moves[0] == Move(p, StartScan(0))
      && forall k :: 0 <= k < |moves| ==> moves[k].p == p && p < |states[k].procs| && !states[k].procs[p].ScanDat?
  }

  lemma EmptyScan(s: State)
    requires Inv(s) && |s.procs| == 2 && s.procs[1].Idle? && !FreeW(s.procs[0])
    requires |s.recs| == 1 && DbState.IsBlank(s.recs[0].key)
    ensures ScansNothing(s, 1)
  {
    hide Inv, Good, Comes, Moves;
    ComesSelf(s);
    Reach(s, s, 1, StartScan(0));
    ScanBegins(s, s);
    ScanReads(s, s, 0);
    ScanReads(s, s, 1);
    var (a, b, c, d) := (At(s, 1, ScanWant(0)), At(s, 1, Scan(0)), At(s, 1, Scan(1)), At(s, 1, Idle));
    assert d == s;
    EmptySteps(s, a, b, c);
    var (states, moves) := ([s, a, b, c, s], [Move(1, StartScan(0)), Move(1, Go), Move(1, Go), Move(1, Go)]);
    assert Path(states, moves);
  }

  lemma EmptySteps(s: State, a: State, b: State, c: State)
    requires Inv(s) && |s.procs| == 2 && s.procs[1].Idle? && !FreeW(s.procs[0])
    requires |s.recs| == 1 && DbState.IsBlank(s.recs[0].key)
    requires a == At(s, 1, ScanWant(0)) && b == At(s, 1, Scan(0)) && c == At(s, 1, Scan(1))
    requires Comes(s, a) && Comes(s, b) && Comes(s, c)
    ensures Moves(s, Move(1, StartScan(0)), a) && Moves(a, Move(1, Go), b) && Moves(b, Move(1, Go), c)
    ensures Moves(c, Move(1, Go), s)
  {
    hide Inv, Comes, Good;
    ComesSelf(s);
    Reach(s, s, 1, StartScan(0));
    Granted(s, a, b);
    RecordRead(s, b, 0);
    RecordRead(s, c, 1);
    assert At(b, 1, Scan(1)) == c && At(c, 1, Idle) == s;
  }

  lemma Granted(s: State, a: State, b: State)
    requires |s.procs| == 2 && !FreeW(s.procs[0]) && a == At(s, 1, ScanWant(0)) && b == At(s, 1, Scan(0)) && Comes(s, a)
    ensures Moves(a, Move(1, Go), b)
  {
    hide Inv, Comes, Good;
    assert Enabled(a, 1, Go);
    Reach(s, a, 1, Go);
    assert At(a, 1, Scan(0)) == b;
  }

  lemma RecordRead(s: State, a: State, n: nat)
    requires Comes(s, a) && |a.procs| == 2 && a.procs[1] == Scan(n)
    requires n < |a.recs| ==> DbState.IsBlank(a.recs[n].key)
    ensures Moves(a, Move(1, Go), At(a, 1, if n < |a.recs| then Scan(n + 1) else Idle))
  {
    hide Inv, Comes, Good;
    assert Enabled(a, 1, Go);
    Reach(s, a, 1, Go);
  }

  /**
   Whatever the key, unless blank, and the data, if of different lengths: process 0 has stored the key (a), stores it
   again, and is between the two records when process 1 scans the whole database and finds nothing (m); then it comes
   to its end (b).
   */
  lemma ScanMissesKey(key: string, old': string, data: string) returns (a: State, m: State, b: State)
    requires !DbState.IsBlank(key) && |old'| != |data|
    ensures Reached(a) && Comes(a, m) && Comes(m, b) && StoredAs(a, key, old') && StoredAs(b, key, data)
    ensures ScansNothing(m, 1) && |m.procs| == 2 && m.procs[0] == ApWant(Replacing(key, data), 0) && Means(m, key, old')
  {
    hide Comes, Reached, Good, SlotOf, Initial, StoredAs, Local, Inv, ScansNothing, Means;
    a := Stored(key, old');
    ComesReached(2, a);
    ComesInv(Initial(2), a);
    ComesSelf(a);
    var op := Replacing(key, data);
    StartsDeleting(a, a, key, old', data);
    var t := BlanksData(a, a, op);
    t := BlanksRecord(a, t, op, a.head[0]);
    t := WritesPointers(a, t, op);
    TurnsToAppend(a, t, op);
    m := At(t, 0, ApWant(op, 0));
    ComesInv(a, m);
    EmptyScan(m);
    OldMeans(m, key);
    ComesSelf(m);
    b := AppendsData(m, t, op);
    b := AppendsRecord(m, b, op, 1);
    b := LinksRecord(m, b, op, 1);
  }

  // ---------- the lock ranges ----------

  datatype File = IdxFile | DatFile

  datatype Kind = NoLock | ReadLock | WriteLock

  /** What a process has locked: its chain's slot, the free list's slot, the index file's and the data file's end. */
  datatype LockSet = LockSet(slot: nat, chain: Kind, free: Kind, idx: Kind, dat: Kind)

  function LocksOf(q: Pc): (l: LockSet)
    ensures l.chain != NoLock ==> 0 < l.slot < SLOTS
  {
    LockSet(if HasChain(q) then SlotOf(q.op) else 0,
          if !HasChain(q) then NoLock else if Writes(q.op) then WriteLock else ReadLock,
          if FreeW(q) then WriteLock else if FreeR(q) then ReadLock else NoLock,
          if IdxW(q) then WriteLock else NoLock,
          if DatW(q) then WriteLock else NoLock)
  }

  /**
   How a byte of a file is locked: a chain's lock is on the first byte of its slot, the free list's on the first
   byte of the file, the one for appending on all bytes behind the slots and their newline; the data file is locked
   whole.
   */
  function LockAt(l: LockSet, f: File, byte: nat): Kind {
    match f
    case DatFile => l.dat
    case IdxFile =>
      if byte == 0 then l.free
      else if byte > 6 * SLOTS then l.idx
      else if byte == 6 * l.slot then l.chain else NoLock
  }

  predicate Conflict(a: Kind, b: Kind) {
    (a == WriteLock && b != NoLock) || (a != NoLock && b == WriteLock)
  }

  ghost predicate Clash(a: LockSet, b: LockSet) {
    exists f: File, byte: nat :: Conflict(LockAt(a, f, byte), LockAt(b, f, byte))
  }

  /** Two processes are compatible exactly when there is no byte both have locked, one of them for writing. */
  lemma CompatibleBytes(a: Pc, b: Pc)
    ensures Compatible(a, b) <==> !Clash(LocksOf(a), LocksOf(b))
  {
    hide Compatible, LocksOf;
    CompatibleKinds(a, b);
    ClashKinds(LocksOf(a), LocksOf(b));
  }

  predicate KindsConflict(a: LockSet, b: LockSet) {
    || (a.slot == b.slot && Conflict(a.chain, b.chain)) || Conflict(a.free, b.free)
    || Conflict(a.idx, b.idx) || Conflict(a.dat, b.dat)
  }

  lemma ClashKinds(a: LockSet, b: LockSet)
    requires (a.chain != NoLock ==> 0 < a.slot < SLOTS) && (b.chain != NoLock ==> 0 < b.slot < SLOTS)
    ensures KindsConflict(a, b) <==> Clash(a, b)
  {
    if KindsConflict(a, b) {
      var byte: nat := if Conflict(a.free, b.free) then 0 else if Conflict(a.idx, b.idx) then 6 * SLOTS + 1
          else 6 * a.slot;
      var f := if Conflict(a.dat, b.dat) then DatFile else IdxFile;
      assert Conflict(LockAt(a, f, byte), LockAt(b, f, byte));
    }
  }

  lemma CompatibleKinds(a: Pc, b: Pc)
    ensures Compatible(a, b) <==> !KindsConflict(LocksOf(a), LocksOf(b))
  {
    hide SlotOf, Writes;
  }
}
