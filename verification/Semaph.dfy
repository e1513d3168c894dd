/**
 The System V semaphore wrapper of refer_code/apue.2e/lib/semaph.c as a protocol: any number
 of processes, each semop or semctl one atomic step, SEM_UNDO adjustments applied when a
 process dies, which it may do at any step.  One key; a removed set and the set created
 after it have different ids.  Member [0] is only followed up to its initialisation.
 */
module Semaph {
  import opened Basics

  const BIGCOUNT := 10000

  /** Where a process is in sem_create, sem_open or sem_close, with the id it works on. */
  datatype Pc =
    | Idle
    | Create                      // before semget in sem_create
    | Got(id: nat)                // before op_lock
    | Waits(id: nat)              // blocked in op_lock
    | Locked(id: nat)             // before GETVAL
    | SawZero(id: nat)            // before SETVAL of [0]
    | Set0(id: nat)               // before SETVAL of [1]
    | Ready(id: nat)              // before op_endcreate
    | OpenGot(id: nat)            // before op_open in sem_open
    | Closing(id: nat)            // before GETVAL in sem_close
    | Saw(id: nat, v: int)        // before the decision in sem_close
    | Dead

  /** Open handles per id, and the kernel's undo adjustments for members [1] and [2]. */
  datatype Proc = Proc(pc: Pc, opens: map<nat, nat>, adj1: map<nat, int>, adj2: map<nat, int>)

  /** Members of a set; [0] is None until it has been given its initial value. */
  datatype SemSet = SemSet(s0: Option<int>, s1: int, s2: int)

  /** The set of the key, if it exists, has id gen; otherwise gen is the id the next one will get. */
  datatype State = State(live: Option<SemSet>, gen: nat, procs: seq<Proc>)

  datatype Action =
    | CallCreate | SemGet | Lock | LockWait | LockInvalid | LockRemoved | GetVal | SetVal0(v: int) | SetVal1 | EndCreate
    | OpenGet | OpenFail | OpenOp | OpenInvalid
    | CloseOp(id: nat) | CloseInvalid(id: nat) | CloseGet | CloseEnd
    | Die

  function At(m: map<nat, nat>, id: nat): nat { if id in m then m[id] else 0 }
  function Adj(m: map<nat, int>, id: nat): int { if id in m then m[id] else 0 }

  predicate Alive(s: State, id: nat) {
    s.live.Some? && id == s.gen
  }

  /** The process holds the lock member of set id. */
  predicate Holds(p: Proc, id: nat) {
    match p.pc
    case Locked(i) => i == id
    case SawZero(i) => i == id
    case Set0(i) => i == id
    case Ready(i) => i == id
    case Closing(i) => i == id
    case Saw(i, _) => i == id
    case _ => false
  }

  function Opens(ps: seq<Proc>, id: nat): nat {
    if ps == [] then 0 else Opens(ps[..|ps| - 1], id) + At(ps[|ps| - 1].opens, id)
  }

  function Locks(ps: seq<Proc>, id: nat): nat {
    if ps == [] then 0 else Locks(ps[..|ps| - 1], id) + if Holds(ps[|ps| - 1], id) then 1 else 0
  }

  // ---------- the steps ----------

  /** When process p can take the action; a step that would block is not enabled. */
  predicate Enabled(s: State, p: nat, a: Action) {
    p < |s.procs| &&
    var q := s.procs[p];
    match a
    case CallCreate => q.pc.Idle?
    case SemGet => q.pc.Create?
    case Lock => (q.pc.Got? || q.pc.Waits?) && Alive(s, q.pc.id) && s.live.value.s2 == 0
    case LockWait => q.pc.Got? && Alive(s, q.pc.id) && s.live.value.s2 != 0
    case LockInvalid => q.pc.Got? && !Alive(s, q.pc.id)
    case LockRemoved => q.pc.Waits? && !Alive(s, q.pc.id)
    case GetVal => q.pc.Locked? && Alive(s, q.pc.id)
    case SetVal0(_) => q.pc.SawZero? && Alive(s, q.pc.id)
    case SetVal1 => q.pc.Set0? && Alive(s, q.pc.id)
    case EndCreate => q.pc.Ready? && Alive(s, q.pc.id) && s.live.value.s1 > 0 && Opens(s.procs, q.pc.id) + 1 < BIGCOUNT
    case OpenGet => q.pc.Idle? && s.live.Some?
    case OpenFail => q.pc.Idle? && s.live.None?
    case OpenOp => q.pc.OpenGot? && Alive(s, q.pc.id) && s.live.value.s1 > 0 && Opens(s.procs, q.pc.id) + 1 < BIGCOUNT
    case OpenInvalid => q.pc.OpenGot? && !Alive(s, q.pc.id)
    case CloseOp(id) => q.pc.Idle? && At(q.opens, id) > 0 && Alive(s, id) && s.live.value.s2 == 0
    case CloseInvalid(id) => q.pc.Idle? && At(q.opens, id) > 0 && !Alive(s, id)
    case CloseGet => q.pc.Closing? && Alive(s, q.pc.id)
    case CloseEnd => q.pc.Saw? && Alive(s, q.pc.id)
    case Die => !q.pc.Dead?
  }

  /** The process exits: its adjustments are added to the members of the set. */
  function Exit(s: State, p: nat): State
    requires p < |s.procs|
  {
    var q := s.procs[p];
    s.(live := if s.live.None? then None else
         Some(s.live.value.(s1 := s.live.value.s1 + Adj(q.adj1, s.gen), s2 := s.live.value.s2 + Adj(q.adj2, s.gen))),
       procs := s.procs[p := Proc(Dead, map[], map[], map[])])
  }

  /** SETVAL clears every process's adjustment for the member. */
  function ClearAdj1(ps: seq<Proc>, id: nat): (r: seq<Proc>)
    ensures |r| == |ps|
  {
    seq(|ps|, i requires 0 <= i < |ps| => ps[i].(adj1 := ps[i].adj1[id := 0]))
  }

  function With(s: State, p: nat, q: Proc): State
    requires p < |s.procs|
  {
    s.(procs := s.procs[p := q])
  }

  function Next(s: State, p: nat, a: Action): State
    requires Enabled(s, p, a)
  {
    var q := s.procs[p];
    match a
    case CallCreate => With(s, p, q.(pc := Create))
    case SemGet =>
      With(if s.live.None? then s.(live := Some(SemSet(None, 0, 0))) else s, p, q.(pc := Got(s.gen)))
    case Lock =>
      With(s.(live := Some(s.live.value.(s2 := 1))), p,
           q.(pc := Locked(q.pc.id), adj2 := q.adj2[q.pc.id := Adj(q.adj2, q.pc.id) - 1]))
    case LockWait => With(s, p, q.(pc := Waits(q.pc.id)))
    case LockInvalid => With(s, p, q.(pc := Create))
    case LockRemoved => Exit(s, p)
    case GetVal => With(s, p, q.(pc := if s.live.value.s1 == 0 then SawZero(q.pc.id) else Ready(q.pc.id)))
    case SetVal0(v) => With(s.(live := Some(s.live.value.(s0 := Some(v)))), p, q.(pc := Set0(q.pc.id)))
    case SetVal1 =>
      var t := s.(live := Some(s.live.value.(s1 := BIGCOUNT)), procs := ClearAdj1(s.procs, q.pc.id));
      With(t, p, t.procs[p].(pc := Ready(q.pc.id)))
    case EndCreate =>
      With(s.(live := Some(s.live.value.(s1 := s.live.value.s1 - 1, s2 := s.live.value.s2 - 1))), p,
           Proc(Idle, q.opens[q.pc.id := At(q.opens, q.pc.id) + 1],
                q.adj1[q.pc.id := Adj(q.adj1, q.pc.id) + 1], q.adj2[q.pc.id := Adj(q.adj2, q.pc.id) + 1]))
    case OpenGet => With(s, p, q.(pc := OpenGot(s.gen)))
    case OpenFail => s
    case OpenOp =>
      With(s.(live := Some(s.live.value.(s1 := s.live.value.s1 - 1))), p,
           q.(pc := Idle, opens := q.opens[q.pc.id := At(q.opens, q.pc.id) + 1],
              adj1 := q.adj1[q.pc.id := Adj(q.adj1, q.pc.id) + 1]))
    case OpenInvalid => Exit(s, p)
    case CloseOp(id) =>
      With(s.(live := Some(s.live.value.(s1 := s.live.value.s1 + 1, s2 := 1))), p,
           Proc(Closing(id), q.opens[id := At(q.opens, id) - 1],
                q.adj1[id := Adj(q.adj1, id) - 1], q.adj2[id := Adj(q.adj2, id) - 1]))
    case CloseInvalid(_) => Exit(s, p)
    case CloseGet => With(s, p, q.(pc := Saw(q.pc.id, s.live.value.s1)))
    case CloseEnd =>
      if q.pc.v > BIGCOUNT then Exit(s, p)
      else if q.pc.v == BIGCOUNT then With(s.(live := None, gen := s.gen + 1), p, q.(pc := Idle))
      else
        With(s.(live := Some(s.live.value.(s2 := s.live.value.s2 - 1))), p,
             q.(pc := Idle, adj2 := q.adj2[q.pc.id := Adj(q.adj2, q.pc.id) + 1]))
    case Die => Exit(s, p)
  }

  /** No set, and everybody idle. */
  function Init(n: nat): State {
    State(None, 0, seq(n, i => Proc(Idle, map[], map[], map[])))
  }

  // ---------- sums over the processes ----------

  lemma {:induction false} OpensUpdate(ps: seq<Proc>, p: nat, q: Proc, id: nat)
    requires p < |ps|
    ensures Opens(ps[p := q], id) == Opens(ps, id) - At(ps[p].opens, id) + At(q.opens, id)
    ensures Opens(ps, id) >= At(ps[p].opens, id)
  {
    var n := |ps| - 1;
    if p < n {
      OpensUpdate(ps[..n], p, q, id);
      assert ps[p := q][..n] == ps[..n][p := q];
    } else {
      assert ps[p := q][..n] == ps[..n];
    }
  }

  lemma {:induction false} LocksUpdate(ps: seq<Proc>, p: nat, q: Proc, id: nat)
    requires p < |ps|
    ensures Locks(ps[p := q], id) == Locks(ps, id) - (if Holds(ps[p], id) then 1 else 0)
            + (if Holds(q, id) then 1 else 0)
    ensures Locks(ps, id) >= if Holds(ps[p], id) then 1 else 0
  {
    var n := |ps| - 1;
    if p < n {
      LocksUpdate(ps[..n], p, q, id);
      assert ps[p := q][..n] == ps[..n][p := q];
    } else {
      assert ps[p := q][..n] == ps[..n];
    }
  }

  lemma {:induction false} SumsSame(ps: seq<Proc>, qs: seq<Proc>, id: nat)
    requires |ps| == |qs| && forall i :: 0 <= i < |ps| ==> ps[i].opens == qs[i].opens && ps[i].pc == qs[i].pc
    ensures Opens(ps, id) == Opens(qs, id) && Locks(ps, id) == Locks(qs, id)
  {
    if ps != [] {
      SumsSame(ps[..|ps| - 1], qs[..|qs| - 1], id);
    }
  }

  /** Two holders make two. */
  lemma {:induction false} TwoHolders(ps: seq<Proc>, p: nat, r: nat, id: nat)
    requires p < r < |ps| && Holds(ps[p], id) && Holds(ps[r], id)
    ensures Locks(ps, id) >= 2
  {
    var n := |ps| - 1;
    if r < n {
      TwoHolders(ps[..n], p, r, id);
    } else {
      LocksUpdate(ps[..n], p, ps[p], id);
    }
  }

  lemma {:induction false} SumsZero(ps: seq<Proc>, id: nat)
    requires forall i :: 0 <= i < |ps| ==> At(ps[i].opens, id) == 0 && !Holds(ps[i], id)
    ensures Opens(ps, id) == 0 && Locks(ps, id) == 0
  {
    if ps != [] {
      SumsZero(ps[..|ps| - 1], id);
    }
  }

  // ---------- the invariant ----------

  /** An id that has been handed out. */
  predicate Known(s: State, id: nat) {
    id < s.gen || Alive(s, id)
  }

  ghost predicate PcOk(s: State, q: Proc) {
    match q.pc
    case Idle => true
    case Create => true
    case Got(id) => Known(s, id)
    case Waits(id) => Known(s, id)
    case Locked(id) => Alive(s, id)
    case SawZero(id) => Alive(s, id) && s.live.value.s1 == 0
    case Set0(id) => Alive(s, id) && s.live.value.s1 == 0 && s.live.value.s0.Some?
    case Ready(id) => Alive(s, id) && s.live.value.s1 != 0
    case OpenGot(id) => Known(s, id)
    case Closing(id) => Alive(s, id) && s.live.value.s1 != 0
    case Saw(id, v) => Alive(s, id) && 0 < v <= BIGCOUNT && s.live.value.s1 != 0
    case Dead => q.opens == map[]
  }

  predicate InUse(q: Proc, id: nat) {
    At(q.opens, id) > 0 || Adj(q.adj1, id) != 0 || Adj(q.adj2, id) != 0
  }

  /** The adjustments are what would undo the process's opens and its lock. */
  ghost predicate AdjOk(s: State, q: Proc) {
    && Adj(q.adj1, s.gen) == At(q.opens, s.gen)
    && Adj(q.adj2, s.gen) == -(if Holds(q, s.gen) then 1 else 0)
    && forall id: nat :: InUse(q, id) ==> Known(s, id)
  }

  ghost predicate ProcOk(s: State, p: nat)
    requires p < |s.procs|
  {
    PcOk(s, s.procs[p]) && AdjOk(s, s.procs[p])
  }

  /** The lock member counts the lock holders, and the counter member the open handles. */
  ghost predicate SetOk(s: State) {
    s.live.Some? ==>
      var v := s.live.value;
      && v.s2 == Locks(s.procs, s.gen) <= 1
      && Opens(s.procs, s.gen) < BIGCOUNT
      && (v.s1 == 0 ==> Opens(s.procs, s.gen) == 0)
      && (v.s1 != 0 ==> v.s1 == BIGCOUNT - Opens(s.procs, s.gen) && v.s0.Some?)
  }

  ghost predicate Inv(s: State) {
    SetOk(s) && forall p: nat :: p < |s.procs| ==> ProcOk(s, p)
  }

  lemma InitInv(n: nat)
    ensures Inv(Init(n))
  {
  }

  /** Nobody else holds the lock p holds. */
  lemma OnlyHolder(s: State, p: nat, r: nat)
    requires Inv(s) && p < |s.procs| && r < |s.procs| && p != r && s.live.Some? && Holds(s.procs[p], s.gen)
    ensures !Holds(s.procs[r], s.gen)
  {
    if Holds(s.procs[r], s.gen) {
      if p < r {
        TwoHolders(s.procs, p, r, s.gen);
      } else {
        TwoHolders(s.procs, r, p, s.gen);
      }
    }
  }

  lemma NoHolder(s: State, r: nat)
    requires Inv(s) && r < |s.procs| && s.live.Some? && s.live.value.s2 == 0
    ensures !Holds(s.procs[r], s.gen)
  {
    LocksUpdate(s.procs, r, s.procs[r], s.gen);
  }

  /** An unsettled counter means nobody has the set open. */
  lemma NoneOpen(s: State, r: nat)
    requires Inv(s) && r < |s.procs| && s.live.Some? && Opens(s.procs, s.gen) == 0
    ensures At(s.procs[r].opens, s.gen) == 0
  {
    OpensUpdate(s.procs, r, s.procs[r], s.gen);
  }

  /** Replacing process p, and perhaps the members, with the same set in place. */
  lemma WithInv(s: State, p: nat, t: State)
    requires Inv(s) && p < |s.procs| == |t.procs| && t.gen == s.gen && t.procs == s.procs[p := t.procs[p]]
    requires s.live.Some? ==> t.live.Some?
    requires SetOk(t) && ProcOk(t, p)
    requires forall r: nat :: r < |s.procs| && r != p ==> PcOk(t, s.procs[r])
    ensures Inv(t)
  {
    forall r: nat | r < |t.procs| ensures ProcOk(t, r) {
      if r != p {
        assert ProcOk(s, r);
      }
    }
  }

  lemma ExitInv(s: State, p: nat)
    requires Inv(s) && p < |s.procs|
    ensures Inv(Exit(s, p))
  {
    var (q, d, t) := (s.procs[p], Proc(Dead, map[], map[], map[]), Exit(s, p));
    assert ProcOk(s, p);
    OpensUpdate(s.procs, p, d, s.gen);
    LocksUpdate(s.procs, p, d, s.gen);
    forall r: nat | r < |s.procs| && r != p ensures PcOk(t, s.procs[r]) {
      assert ProcOk(s, r);
    }
    WithInv(s, p, t);
  }

  // ---------- every step keeps it ----------

  /** Steps that change only a process's place in the code. */
  lemma MoveInv(s: State, p: nat, a: Action)
    requires Inv(s) && Enabled(s, p, a)
    requires a.CallCreate? || a.LockWait? || a.LockInvalid? || a.GetVal? || a.OpenGet? || a.CloseGet?
    ensures Inv(Next(s, p, a))
  {
    hide Opens, Locks;
    var t := Next(s, p, a);
    assert ProcOk(s, p);
    OpensUpdate(s.procs, p, t.procs[p], s.gen);
    LocksUpdate(s.procs, p, t.procs[p], s.gen);
    forall r: nat | r < |s.procs| && r != p ensures PcOk(t, s.procs[r]) {
      assert ProcOk(s, r);
    }
    forall id: nat | InUse(t.procs[p], id) ensures Known(t, id) {
      assert InUse(s.procs[p], id);
    }
    WithInv(s, p, t);
  }

  lemma SemGetInv(s: State, p: nat)
    requires Inv(s) && Enabled(s, p, SemGet)
    ensures Inv(Next(s, p, SemGet))
  {
    hide Opens, Locks;
    var t := Next(s, p, SemGet);
    assert ProcOk(s, p);
    OpensUpdate(s.procs, p, t.procs[p], s.gen);
    LocksUpdate(s.procs, p, t.procs[p], s.gen);
    if s.live.None? {
      forall r | 0 <= r < |s.procs| ensures At(s.procs[r].opens, s.gen) == 0 && !Holds(s.procs[r], s.gen) {
        assert ProcOk(s, r) && (InUse(s.procs[r], s.gen) ==> Known(s, s.gen));
      }
      SumsZero(s.procs, s.gen);
    }
    forall r: nat | r < |s.procs| && r != p ensures PcOk(t, s.procs[r]) {
      assert ProcOk(s, r);
    }
    forall id: nat | InUse(t.procs[p], id) ensures Known(t, id) {
      assert InUse(s.procs[p], id);
    }
    WithInv(s, p, t);
  }

  /** Taking the lock, in sem_create or in sem_close. */
  lemma LockInv(s: State, p: nat, a: Action)
    requires Inv(s) && Enabled(s, p, a) && (a.Lock? || a.CloseOp?)
    ensures Inv(Next(s, p, a))
  {
    hide Opens, Locks;
    var t := Next(s, p, a);
    assert ProcOk(s, p);
    OpensUpdate(s.procs, p, t.procs[p], s.gen);
    LocksUpdate(s.procs, p, t.procs[p], s.gen);
    forall r: nat | r < |s.procs| && r != p ensures PcOk(t, s.procs[r]) {
      assert ProcOk(s, r);
      NoHolder(s, r);
    }
    forall id: nat | InUse(t.procs[p], id) ensures Known(t, id) {
      assert id != s.gen ==> InUse(s.procs[p], id);
    }
    WithInv(s, p, t);
  }

  /** Writing under the lock. */
  lemma UnderLockInv(s: State, p: nat, a: Action)
    requires Inv(s) && Enabled(s, p, a) && (a.SetVal0? || a.EndCreate? || (a.CloseEnd? && s.procs[p].pc.v < BIGCOUNT))
    ensures Inv(Next(s, p, a))
  {
    hide Opens, Locks;
    var t := Next(s, p, a);
    assert ProcOk(s, p);
    OpensUpdate(s.procs, p, t.procs[p], s.gen);
    LocksUpdate(s.procs, p, t.procs[p], s.gen);
    forall r: nat | r < |s.procs| && r != p ensures PcOk(t, s.procs[r]) {
      assert ProcOk(s, r);
      OnlyHolder(s, p, r);
    }
    forall id: nat | InUse(t.procs[p], id) ensures Known(t, id) {
      assert id != s.gen ==> InUse(s.procs[p], id);
    }
    WithInv(s, p, t);
  }

  lemma SetVal1Inv(s: State, p: nat)
    requires Inv(s) && Enabled(s, p, SetVal1)
    ensures Inv(Next(s, p, SetVal1))
  {
    hide Opens, Locks;
    var (q, t) := (s.procs[p], Next(s, p, SetVal1));
    assert ProcOk(s, p);
    var cleared := ClearAdj1(s.procs, s.gen);
    SumsSame(s.procs, cleared, s.gen);
    OpensUpdate(cleared, p, t.procs[p], s.gen);
    LocksUpdate(cleared, p, t.procs[p], s.gen);
    forall r: nat | r < |t.procs| ensures ProcOk(t, r) {
      assert ProcOk(s, r);
      NoneOpen(s, r);
      if r != p {
        OnlyHolder(s, p, r);
      }
      forall id: nat | InUse(t.procs[r], id) ensures Known(t, id) {
        assert InUse(s.procs[r], id);
      }
    }
  }

  lemma OpenInv(s: State, p: nat)
    requires Inv(s) && Enabled(s, p, OpenOp)
    ensures Inv(Next(s, p, OpenOp))
  {
    hide Opens, Locks;
    var t := Next(s, p, OpenOp);
    assert ProcOk(s, p);
    OpensUpdate(s.procs, p, t.procs[p], s.gen);
    LocksUpdate(s.procs, p, t.procs[p], s.gen);
    forall r: nat | r < |s.procs| && r != p ensures PcOk(t, s.procs[r]) {
      assert ProcOk(s, r);
    }
    forall id: nat | InUse(t.procs[p], id) ensures Known(t, id) {
      assert id != s.gen ==> InUse(s.procs[p], id);
    }
    WithInv(s, p, t);
  }

  /** The last closer removes the set; its id is never used again. */
  lemma RemoveInv(s: State, p: nat)
    requires Inv(s) && Enabled(s, p, CloseEnd) && s.procs[p].pc.v == BIGCOUNT
    ensures Inv(Next(s, p, CloseEnd))
  {
    hide Opens, Locks;
    var t := Next(s, p, CloseEnd);
    assert ProcOk(s, p);
    forall r: nat | r < |t.procs| ensures ProcOk(t, r) {
      assert ProcOk(s, r);
      if r != p {
        OnlyHolder(s, p, r);
      }
      assert InUse(s.procs[r], s.gen + 1) ==> Known(s, s.gen + 1);
      forall id: nat | InUse(t.procs[r], id) ensures Known(t, id) {
        assert InUse(s.procs[r], id);
      }
    }
  }

  lemma StepInv(s: State, p: nat, a: Action)
    requires Inv(s) && Enabled(s, p, a)
    ensures Inv(Next(s, p, a))
  {
    hide Inv, Exit, SetOk;
    match a
    case CallCreate => MoveInv(s, p, a);
    case SemGet => SemGetInv(s, p);
    case Lock => LockInv(s, p, a);
    case LockWait => MoveInv(s, p, a);
    case LockInvalid => MoveInv(s, p, a);
    case LockRemoved => ExitInv(s, p);
    case GetVal => MoveInv(s, p, a);
    case SetVal0(_) => UnderLockInv(s, p, a);
    case SetVal1 => SetVal1Inv(s, p);
    case EndCreate => UnderLockInv(s, p, a);
    case OpenGet => MoveInv(s, p, a);
    case OpenFail =>
    case OpenOp => OpenInv(s, p);
    case OpenInvalid => ExitInv(s, p);
    case CloseOp(_) => LockInv(s, p, a);
    case CloseInvalid(_) => ExitInv(s, p);
    case CloseGet => MoveInv(s, p, a);
    case CloseEnd =>
      SawBound(s, p);
      if s.procs[p].pc.v == BIGCOUNT {
        RemoveInv(s, p);
      } else {
        UnderLockInv(s, p, a);
      }
    case Die => ExitInv(s, p);
  }

  /** The err_dump branch of sem_close cannot be reached. */
  lemma SawBound(s: State, p: nat)
    requires Inv(s) && p < |s.procs| && s.procs[p].pc.Saw?
    ensures 0 < s.procs[p].pc.v <= BIGCOUNT
  {
    assert ProcOk(s, p);
  }

  // ---------- runs ----------

  datatype Move = Move(p: nat, a: Action)

  ghost predicate StepAt(run: seq<State>, moves: seq<Move>, i: nat)
    requires i < |moves| && |run| == |moves| + 1
  {
    Enabled(run[i], moves[i].p, moves[i].a) && run[i + 1] == Next(run[i], moves[i].p, moves[i].a)
  }

  ghost predicate IsRun(n: nat, run: seq<State>, moves: seq<Move>) {
    && |run| == |moves| + 1 && run[0] == Init(n)
    && forall i: nat :: i < |moves| ==> StepAt(run, moves, i)
  }

  lemma {:induction false} RunInv(n: nat, run: seq<State>, moves: seq<Move>, i: nat)
    requires IsRun(n, run, moves) && i < |run|
    ensures Inv(run[i])
  {
    hide Inv, Enabled, Next;
    if i == 0 {
      InitInv(n);
    } else {
      RunInv(n, run, moves, i - 1);
      assert StepAt(run, moves, i - 1);
      StepInv(run[i - 1], moves[i - 1].p, moves[i - 1].a);
    }
  }

  /**
   In every state of every run, whoever died when: the counter of an initialised set is BIGCOUNT less
   the number of open handles, the lock member is the number of lock holders and at most 1, and a
   closer never reads a counter above BIGCOUNT.
   */
  lemma CountersCount(n: nat, run: seq<State>, moves: seq<Move>, i: nat)
    requires IsRun(n, run, moves) && i < |run|
    ensures var s := run[i];
            && (s.live.Some? ==>
                  && s.live.value.s2 == Locks(s.procs, s.gen) && s.live.value.s2 in {0, 1}
                  && (s.live.value.s1 == 0 || s.live.value.s1 == BIGCOUNT - Opens(s.procs, s.gen)))
            && forall p :: 0 <= p < |s.procs| && s.procs[p].pc.Saw? ==> s.procs[p].pc.v <= BIGCOUNT
  {
    RunInv(n, run, moves, i);
    forall p | 0 <= p < |run[i].procs| && run[i].procs[p].pc.Saw? ensures run[i].procs[p].pc.v <= BIGCOUNT {
      SawBound(run[i], p);
    }
  }

  // ---------- attaching only through sem_create ----------

  ghost predicate SafeProc(s: State, p: nat)
    requires p < |s.procs|
  {
    var q := s.procs[p];
    && !q.pc.OpenGot?
    && (q.pc.Saw? && q.pc.v == BIGCOUNT ==> Opens(s.procs, s.gen) == 0)
    && forall id: nat :: At(q.opens, id) > 0 ==> Alive(s, id)
  }

  /** Whoever has a set open has the set that exists, and a closer about to remove it is the last. */
  ghost predicate Safe(s: State) {
    forall p: nat :: p < |s.procs| ==> SafeProc(s, p)
  }

  /** A step that leaves the set in place and adds no handle except under the lock. */
  lemma KeepsSafe(s: State, p: nat, t: State)
    requires Inv(s) && Safe(s) && p < |s.procs| == |t.procs| && t.gen == s.gen && (s.live.Some? ==> t.live.Some?)
    requires forall r: nat :: r < |s.procs| && r != p ==>
             t.procs[r].pc == s.procs[r].pc && t.procs[r].opens == s.procs[r].opens
    requires SafeProc(t, p)
    requires Opens(t.procs, s.gen) <= Opens(s.procs, s.gen) || (s.live.Some? && Holds(s.procs[p], s.gen))
    ensures Safe(t)
  {
    hide Opens, Locks;
    forall r: nat | r < |t.procs| ensures SafeProc(t, r) {
      assert SafeProc(s, r) && ProcOk(s, r);
      if r != p && s.live.Some? && Holds(s.procs[p], s.gen) {
        OnlyHolder(s, p, r);
      }
    }
  }

  lemma ExitSafe(s: State, p: nat)
    requires Inv(s) && Safe(s) && p < |s.procs|
    ensures Safe(Exit(s, p))
  {
    hide Opens, Locks;
    OpensUpdate(s.procs, p, Proc(Dead, map[], map[], map[]), s.gen);
    KeepsSafe(s, p, Exit(s, p));
  }

  lemma RemoveSafe(s: State, p: nat)
    requires Inv(s) && Safe(s) && Enabled(s, p, CloseEnd) && s.procs[p].pc.v == BIGCOUNT
    ensures Safe(Next(s, p, CloseEnd))
  {
    hide Opens, Locks;
    var t := Next(s, p, CloseEnd);
    assert SafeProc(s, p);
    forall r: nat | r < |t.procs| ensures SafeProc(t, r) {
      assert SafeProc(s, r) && ProcOk(s, r);
      NoneOpen(s, r);
      if r != p {
        OnlyHolder(s, p, r);
      }
      assert t.procs[r].opens == s.procs[r].opens;
    }
  }

  lemma StepSafe(s: State, p: nat, a: Action)
    requires Inv(s) && Safe(s) && Enabled(s, p, a) && !a.OpenGet?
    ensures Safe(Next(s, p, a))
  {
    hide Opens, Locks, Exit;
    assert SafeProc(s, p) && ProcOk(s, p);
    if a.LockRemoved? || a.OpenInvalid? || a.CloseInvalid? || a.Die? || (a.CloseEnd? && s.procs[p].pc.v > BIGCOUNT) {
      ExitSafe(s, p);
    } else if a.CloseEnd? && s.procs[p].pc.v == BIGCOUNT {
      RemoveSafe(s, p);
    } else {
      MostSafe(s, p, a);
    }
  }

  lemma MostSums(s: State, p: nat, a: Action)
    requires Inv(s) && Enabled(s, p, a) && !a.LockRemoved? && !a.OpenInvalid? && !a.CloseInvalid? && !a.OpenOp?
    requires !a.Die?
    requires a.CloseEnd? ==> s.procs[p].pc.v < BIGCOUNT
    ensures |Next(s, p, a).procs| == |s.procs|
    ensures Opens(Next(s, p, a).procs, s.gen) <= Opens(s.procs, s.gen) || a.EndCreate?
  {
    hide Opens, Locks;
    var t := Next(s, p, a);
    assert ProcOk(s, p);
    if a.SetVal1? {
      SumsSame(s.procs, ClearAdj1(s.procs, s.gen), s.gen);
      OpensUpdate(ClearAdj1(s.procs, s.gen), p, t.procs[p], s.gen);
    } else {
      OpensUpdate(s.procs, p, t.procs[p], s.gen);
    }
  }

  lemma MostSafe(s: State, p: nat, a: Action)
    requires Inv(s) && Safe(s) && Enabled(s, p, a) && !a.OpenGet? && !a.LockRemoved? && !a.OpenInvalid?
    requires !a.CloseInvalid?
    requires !a.Die? && (a.CloseEnd? ==> s.procs[p].pc.v < BIGCOUNT)
    ensures Safe(Next(s, p, a))
  {
    hide Opens, Locks;
    var t := Next(s, p, a);
    assert SafeProc(s, p) && ProcOk(s, p);
    MostSums(s, p, a);
    hide Inv;
    forall id: nat | At(t.procs[p].opens, id) > 0 ensures Alive(t, id) {
      if id != s.gen {
        MostOpens(s, p, a, id);
      }
    }
    KeepsSafe(s, p, t);
  }

  lemma MostOpens(s: State, p: nat, a: Action, id: nat)
    requires Enabled(s, p, a) && p < |Next(s, p, a).procs| && id != s.gen
    ensures At(Next(s, p, a).procs[p].opens, id) <= At(s.procs[p].opens, id)
  {
    hide Opens, Locks, Holds;
  }

  lemma {:induction false} RunSafe(n: nat, run: seq<State>, moves: seq<Move>, i: nat)
    requires IsRun(n, run, moves) && i < |run| && forall j :: 0 <= j < |moves| ==> !moves[j].a.OpenGet?
    ensures Inv(run[i]) && Safe(run[i])
  {
    hide Inv, Enabled, Next, SafeProc;
    RunInv(n, run, moves, i);
    if i == 0 {
      assert forall p: nat :: p < n ==> SafeProc(Init(n), p) by {
        forall p: nat | p < n ensures SafeProc(Init(n), p) {
          IdleSafe(n, p);
        }
      }
    } else {
      RunSafe(n, run, moves, i - 1);
      assert StepAt(run, moves, i - 1);
      StepSafe(run[i - 1], moves[i - 1].p, moves[i - 1].a);
    }
  }

  lemma IdleSafe(n: nat, p: nat)
    requires p < n
    ensures SafeProc(Init(n), p)
  {
  }

  /**
   If processes attach only through sem_create, whoever holds a handle holds the set that exists,
   initialised: sem_close never removes a set somebody has open, and sem_create never returns before
   the initial values are there.
   */
  lemma HeldSetsLive(n: nat, run: seq<State>, moves: seq<Move>, i: nat, p: nat, id: nat)
    requires IsRun(n, run, moves) && i < |run| && forall j :: 0 <= j < |moves| ==> !moves[j].a.OpenGet?
    requires p < |run[i].procs| && At(run[i].procs[p].opens, id) > 0
    ensures Alive(run[i], id) && run[i].live.value.s0.Some? && run[i].live.value.s1 != 0
  {
    RunSafe(n, run, moves, i);
    assert SafeProc(run[i], p);
    OpensUpdate(run[i].procs, p, run[i].procs[p], id);
  }

  // ---------- with sem_open the set can be lost ----------

  /** One more step of a run of two processes. */
  lemma Extend(run: seq<State>, moves: seq<Move>, p: nat, a: Action, s: State)
    returns (run': seq<State>, moves': seq<Move>)
    requires IsRun(2, run, moves) && Enabled(run[|run| - 1], p, a) && s == Next(run[|run| - 1], p, a)
    ensures IsRun(2, run', moves') && run' == run + [s] && run'[|run'| - 1] == s && moves' == moves + [Move(p, a)]
  {
    hide Enabled, Next, Init;
    run', moves' := run + [s], moves + [Move(p, a)];
    forall i: nat | i < |moves'| ensures StepAt(run', moves', i) {
      if i < |moves| {
        assert StepAt(run, moves, i);
      }
    }
  }

  /** A state in which the set, with the given members, has id 0. */
  function Two(s0: Option<int>, s1: int, s2: int, a: Proc, b: Proc): State {
    State(Some(SemSet(s0, s1, s2)), 0, [a, b])
  }

  const FREE := Proc(Idle, map[], map[], map[])
  const CLEARED := Proc(Idle, map[], map[0 := 0], map[])

  lemma TwoOpens(a: Proc, b: Proc)
    ensures Opens([a, b], 0) == At(a.opens, 0) + At(b.opens, 0)
  {
    assert [a, b][..1] == [a] && [a][..0] == [];
    assert Opens([a], 0) == Opens([], 0) + At(a.opens, 0);
  }

  lemma Overwrite(v: int, w: int, m: nat, n: nat)
    ensures map[0 := v][0 := w] == map[0 := w] && map[][0 := w] == map[0 := w]
    ensures map[0 := m][0 := n] == map[0 := n] && map[][0 := n] == map[0 := n]
  {
  }

  /** Process 0 has the lock of a new set. */
  lemma RaceLocked() returns (run: seq<State>, moves: seq<Move>)
    ensures IsRun(2, run, moves) && run[|run| - 1] == Two(None, 0, 1, Proc(Locked(0), map[], map[], map[0 := -1]), FREE)
  {
    run, moves := [Init(2)], [];
    run, moves := Extend(run, moves, 0, CallCreate, State(None, 0, [FREE.(pc := Create), FREE]));
    run, moves := Extend(run, moves, 0, SemGet, Two(None, 0, 0, FREE.(pc := Got(0)), FREE));
    run, moves := Extend(run, moves, 0, Lock, Two(None, 0, 1, Proc(Locked(0), map[], map[], map[0 := -1]), FREE));
  }

  /** Process 0 has initialised it. */
  lemma RaceReady() returns (run: seq<State>, moves: seq<Move>)
    ensures IsRun(2, run, moves)
    ensures run[|run| - 1] == Two(Some(1), BIGCOUNT, 1, Proc(Ready(0), map[], map[0 := 0], map[0 := -1]), CLEARED)
  {
    run, moves := RaceLocked();
    run, moves := Extend(run, moves, 0, GetVal, Two(None, 0, 1, Proc(SawZero(0), map[], map[], map[0 := -1]), FREE));
    run, moves := Extend(run, moves, 0, SetVal0(1), Two(Some(1), 0, 1, Proc(Set0(0), map[], map[], map[0 := -1]),
        FREE));
    run, moves := Extend(run, moves, 0, SetVal1,
                         Two(Some(1), BIGCOUNT, 1, Proc(Ready(0), map[], map[0 := 0], map[0 := -1]), CLEARED));
  }

  const OPEN := Proc(Idle, map[0 := 1], map[0 := 1], map[0 := 0])
  const LAST := Proc(Saw(0, BIGCOUNT), map[0 := 0], map[0 := 0], map[0 := -1])
  const GONE := Proc(Idle, map[0 := 0], map[0 := 0], map[0 := -1])

  /** Process 0 has it open. */
  lemma RaceOpened() returns (run: seq<State>, moves: seq<Move>)
    ensures IsRun(2, run, moves) && run[|run| - 1] == Two(Some(1), BIGCOUNT - 1, 0, OPEN, CLEARED)
  {
    run, moves := RaceReady();
    TwoOpens(Proc(Ready(0), map[], map[0 := 0], map[0 := -1]), CLEARED);
    Overwrite(0, 1, 0, 1);
    Overwrite(-1, 0, 0, 1);
    run, moves := Extend(run, moves, 0, EndCreate, Two(Some(1), BIGCOUNT - 1, 0, OPEN, CLEARED));
  }

  /** Process 0, closing, reads that it is the last, while process 1 stands somewhere. */
  lemma RaceClosing(run: seq<State>, moves: seq<Move>, b: Proc) returns (run': seq<State>, moves': seq<Move>)
    requires IsRun(2, run, moves) && run[|run| - 1] == Two(Some(1), BIGCOUNT - 1, 0, OPEN, b)
    ensures IsRun(2, run', moves') && run'[|run'| - 1] == Two(Some(1), BIGCOUNT, 1, LAST, b)
  {
    Overwrite(1, 0, 1, 0);
    Overwrite(0, -1, 1, 0);
    run', moves' := Extend(run, moves, 0, CloseOp(0),
                           Two(Some(1), BIGCOUNT, 1, Proc(Closing(0), map[0 := 0], map[0 := 0], map[0 := -1]), b));
    run', moves' := Extend(run', moves', 0, CloseGet, Two(Some(1), BIGCOUNT, 1, LAST, b));
  }

  /** sem_open takes no lock: process 1 opens after the last closer has counted, and the set is removed under it. */
  lemma OpenRace() returns (run: seq<State>, moves: seq<Move>)
    ensures IsRun(2, run, moves)
    ensures var s := run[|run| - 1]; |s.procs| == 2 && At(s.procs[1].opens, 0) == 1 && !Alive(s, 0)
  {
    run, moves := RaceOpened();
    var b := CLEARED.(pc := OpenGot(0));
    run, moves := Extend(run, moves, 1, OpenGet, Two(Some(1), BIGCOUNT - 1, 0, OPEN, b));
    run, moves := RaceClosing(run, moves, b);
    TwoOpens(LAST, b);
    Overwrite(0, 1, 0, 1);
    var c := Proc(Idle, map[0 := 1], map[0 := 1], map[]);
    run, moves := Extend(run, moves, 1, OpenOp, Two(Some(1), BIGCOUNT - 1, 1, LAST, c));
    run, moves := Extend(run, moves, 0, CloseEnd, State(None, 1, [GONE, c]));
  }

  /**
   A creator that waits for the lock while the last closer removes the set exits, although it opened nothing: the
   error it gets is not the one sem_create starts again for.
   */
  lemma WaitingCreatorDies() returns (run: seq<State>, moves: seq<Move>, k: nat)
    ensures IsRun(2, run, moves) && |moves| > 0 && moves[|moves| - 1] == Move(1, LockRemoved)
    ensures k < |run| && run[k].live.Some? && run[k].live.value.s2 == 1
    ensures |run[k].procs| == 2 && run[k].procs[1].pc == Waits(0) && Holds(run[k].procs[0], 0)
    ensures |run[|run| - 1].procs| == 2 && run[|run| - 1].procs[1].pc.Dead?
  {
    run, moves := RaceOpened();
    var (b, c) := (CLEARED.(pc := Create), CLEARED.(pc := Got(0)));
    run, moves := Extend(run, moves, 1, CallCreate, Two(Some(1), BIGCOUNT - 1, 0, OPEN, b));
    run, moves := Extend(run, moves, 1, SemGet, Two(Some(1), BIGCOUNT - 1, 0, OPEN, c));
    run, moves := RaceClosing(run, moves, c);
    var d := CLEARED.(pc := Waits(0));
    run, moves := Extend(run, moves, 1, LockWait, Two(Some(1), BIGCOUNT, 1, LAST, d));
    k := |run| - 1;
    run, moves := Extend(run, moves, 0, CloseEnd, State(None, 1, [GONE, d]));
    run, moves := Extend(run, moves, 1, LockRemoved, State(None, 1, [GONE, Proc(Dead, map[], map[], map[])]));
  }

  // ---------- exactly when it is lost ----------

  /** Step i is a sem_close by process p that removes the set. */
  ghost predicate Removes(run: seq<State>, moves: seq<Move>, i: nat, p: nat)
    requires |run| == |moves| + 1
  {
    i < |moves| && moves[i] == Move(p, CloseEnd) && p < |run[i].procs|
        && run[i].procs[p].pc == Saw(run[i].gen, BIGCOUNT)
  }

  /** Step g is the same sem_close reading the counter. */
  ghost predicate Counted(moves: seq<Move>, g: nat, i: nat, p: nat) {
    && g < i < |moves| && moves[g] == Move(p, CloseGet)
    && forall l :: g < l < i ==> moves[l].p != p
  }

  /** Process r opens between the two. */
  ghost predicate OpensBetween(moves: seq<Move>, g: nat, i: nat, r: nat) {
    exists j :: g < j < i < |moves| && moves[j] == Move(r, OpenOp)
  }

  /** What a step may do to another process. */
  lemma OthersKeep(s: State, p: nat, a: Action, r: nat)
    requires Enabled(s, p, a) && r < |s.procs| && r != p
    ensures var t := Next(s, p, a);
            |t.procs| == |s.procs| && t.procs[r].pc == s.procs[r].pc && t.procs[r].opens == s.procs[r].opens
  {
  }

  /** A removal was decided by the closer's own reading of the counter, in the state of that reading. */
  lemma {:induction false} FindCount(n: nat, run: seq<State>, moves: seq<Move>, i: nat, l: nat, p: nat) returns (g: nat)
    requires IsRun(n, run, moves) && l <= i < |moves| && p < |run[l].procs| && run[l].procs[p].pc.Saw?
    requires forall m :: l <= m < i ==> moves[m].p != p
    ensures Counted(moves, g, i, p) && g < l && p < |run[g].procs| && Alive(run[g], run[l].procs[p].pc.id)
    ensures run[l].procs[p].pc == Saw(run[g].gen, run[g].live.value.s1)
    decreases l
  {
    assert run[0] == Init(n);
    assert StepAt(run, moves, l - 1);
    var (s, m) := (run[l - 1], moves[l - 1]);
    if m.p != p {
      OthersKeep(s, m.p, m.a, p);
      g := FindCount(n, run, moves, i, l - 1, p);
    } else {
      g := l - 1;
    }
  }

  /**
   While the closer has the lock, whoever has the set open and does not exit keeps it, and only sem_open adds a
   handle.
   */
  lemma HandleStep(s: State, m: Move, p: nat, r: nat)
    requires Inv(s) && Enabled(s, m.p, m.a) && p < |s.procs| && r < |s.procs| && m.p != p
    requires s.live.Some? && s.procs[p].pc.Saw? && s.procs[p].pc.id == s.gen
    ensures var t := Next(s, m.p, m.a);
            && |t.procs| == |s.procs| && t.gen == s.gen && t.live.Some?
            && (At(s.procs[r].opens, s.gen) > 0 && !t.procs[r].pc.Dead? ==> At(t.procs[r].opens, s.gen) > 0)
            && (At(t.procs[r].opens, s.gen) > 0 ==> At(s.procs[r].opens, s.gen) > 0 || m == Move(r, OpenOp))
            && (m == Move(r, OpenOp) ==> At(t.procs[r].opens, s.gen) > 0)
            && (s.procs[r].pc.Dead? ==> t.procs[r].pc.Dead?)
  {
    hide Opens, Locks;
    assert ProcOk(s, m.p) && ProcOk(s, r);
    OnlyHolder(s, p, m.p);
    LocksUpdate(s.procs, p, s.procs[p], s.gen);
    if r != m.p {
      OthersKeep(s, m.p, m.a, r);
    }
  }

  /** From its reading of the counter to the removal the closer stands still, with the lock, and the set is there. */
  lemma {:induction false} StandsStill(n: nat, run: seq<State>, moves: seq<Move>, g: nat, i: nat, p: nat, l: nat)
    requires IsRun(n, run, moves) && Removes(run, moves, i, p) && Counted(moves, g, i, p) && g < l <= i
    ensures Inv(run[l]) && |run[l].procs| == |run[i].procs| && run[l].live.Some? && run[l].gen == run[i].gen
    ensures run[l].procs[p].pc == Saw(run[l].gen, BIGCOUNT)
    decreases i - l
  {
    RunInv(n, run, moves, l);
    if l < i {
      StandsStill(n, run, moves, g, i, p, l + 1);
      assert StepAt(run, moves, l);
      OthersKeep(run[l], moves[l].p, moves[l].a, p);
    }
    assert ProcOk(run[l], p);
  }

  /** When the closer read the counter nobody had the set open. */
  lemma NobodyAtCount(n: nat, run: seq<State>, moves: seq<Move>, g: nat, i: nat, p: nat, r: nat)
    requires IsRun(n, run, moves) && Removes(run, moves, i, p) && Counted(moves, g, i, p) && r < |run[i].procs|
    ensures |run[g + 1].procs| == |run[i].procs| && At(run[g + 1].procs[r].opens, run[i].gen) == 0
  {
    StandsStill(n, run, moves, g, i, p, g + 1);
    RunInv(n, run, moves, g);
    assert StepAt(run, moves, g);
    NoneOpen(run[g], r);
  }

  lemma {:induction false} FindOpen(n: nat, run: seq<State>, moves: seq<Move>, g: nat, i: nat, p: nat, r: nat, l: nat)
    requires IsRun(n, run, moves) && Removes(run, moves, i, p) && Counted(moves, g, i, p) && g < l <= i
    requires r < |run[i].procs| && r < |run[l].procs| && At(run[l].procs[r].opens, run[i].gen) > 0
    ensures OpensBetween(moves, g, i, r)
    decreases l
  {
    hide Enabled, Next, Inv;
    NobodyAtCount(n, run, moves, g, i, p, r);
    StandsStill(n, run, moves, g, i, p, l - 1);
    assert StepAt(run, moves, l - 1);
    HandleStep(run[l - 1], moves[l - 1], p, r);
    if moves[l - 1] != Move(r, OpenOp) {
      FindOpen(n, run, moves, g, i, p, r, l - 1);
    }
  }

  lemma {:induction false} KeepsOpen(n: nat, run: seq<State>, moves: seq<Move>, g: nat, i: nat, p: nat, r: nat, l: nat)
    requires IsRun(n, run, moves) && Removes(run, moves, i, p) && Counted(moves, g, i, p) && g < l <= i
    requires r < |run[i].procs| && r < |run[l].procs| && At(run[l].procs[r].opens, run[i].gen) > 0
    ensures At(run[i].procs[r].opens, run[i].gen) > 0 || run[i].procs[r].pc.Dead?
    decreases i - l
  {
    hide Enabled, Next, Inv;
    if l < i {
      StandsStill(n, run, moves, g, i, p, l);
      assert StepAt(run, moves, l);
      HandleStep(run[l], moves[l], p, r);
      if run[l + 1].procs[r].pc.Dead? {
        StaysDead(n, run, moves, r, l + 1, i);
      } else {
        KeepsOpen(n, run, moves, g, i, p, r, l + 1);
      }
    }
  }

  lemma {:induction false} StaysDead(n: nat, run: seq<State>, moves: seq<Move>, r: nat, l: nat, i: nat)
    requires IsRun(n, run, moves) && l <= i < |run| && r < |run[l].procs| && run[l].procs[r].pc.Dead?
    ensures r < |run[i].procs| && run[i].procs[r].pc.Dead?
    decreases i - l
  {
    if l < i {
      assert StepAt(run, moves, l);
      if moves[l].p != r {
        OthersKeep(run[l], moves[l].p, moves[l].a, r);
      }
      StaysDead(n, run, moves, r, l + 1, i);
    }
  }

  /**
   A sem_close that removes the set takes it from a process that has it open if and only if that process went through
   sem_open between the close's reading of the counter and the removal, and has not exited.
   */
  lemma RemovalRace(n: nat, run: seq<State>, moves: seq<Move>, g: nat, i: nat, p: nat, r: nat)
    requires IsRun(n, run, moves) && Removes(run, moves, i, p) && Counted(moves, g, i, p) && r < |run[i].procs|
    ensures At(run[i].procs[r].opens, run[i].gen) > 0 <==> OpensBetween(moves, g, i, r) && !run[i].procs[r].pc.Dead?
  {
    RunInv(n, run, moves, i);
    assert ProcOk(run[i], r);
    if At(run[i].procs[r].opens, run[i].gen) > 0 {
      FindOpen(n, run, moves, g, i, p, r, i);
    }
    if OpensBetween(moves, g, i, r) {
      var j :| g < j < i && moves[j] == Move(r, OpenOp);
      StandsStill(n, run, moves, g, i, p, j);
      StandsStill(n, run, moves, g, i, p, j + 1);
      assert StepAt(run, moves, j);
      HandleStep(run[j], moves[j], p, r);
      KeepsOpen(n, run, moves, g, i, p, r, j + 1);
    }
  }

  /** In every state of the run, whoever has a set open has the one that exists. */
  ghost predicate HoldersSafe(run: seq<State>) {
    forall k: nat, r: nat, id: nat :: k < |run| ==> HolderSafe(run[k], r, id)
  }

  predicate HolderSafe(s: State, r: nat, id: nat) {
    r < |s.procs| && At(s.procs[r].opens, id) > 0 ==> Alive(s, id)
  }

  /** A removal that overlooks process r. */
  ghost predicate Overlooks(run: seq<State>, moves: seq<Move>, g: nat, i: nat, p: nat, r: nat)
    requires |run| == |moves| + 1
  {
    && Removes(run, moves, i, p) && Counted(moves, g, i, p) && OpensBetween(moves, g, i, r)
    && r < |run[i].procs| && !run[i].procs[r].pc.Dead?
  }

  /** A step after which somebody has a set open that does not exist removed it. */
  lemma LosingStep(s: State, m: Move, r: nat, id: nat)
    requires Inv(s) && Enabled(s, m.p, m.a) && HolderSafe(s, r, id) && !HolderSafe(Next(s, m.p, m.a), r, id)
    ensures m.a == CloseEnd && s.procs[m.p].pc == Saw(s.gen, BIGCOUNT) && id == s.gen
    ensures r < |s.procs| && At(s.procs[r].opens, id) > 0
  {
    hide Opens, Locks;
    assert ProcOk(s, m.p);
    if r < |s.procs| && r != m.p {
      OthersKeep(s, m.p, m.a, r);
    }
  }

  lemma {:induction false} FindLoss(n: nat, run: seq<State>, moves: seq<Move>, k: nat, r: nat, id: nat)
    requires IsRun(n, run, moves) && k < |run| && !HolderSafe(run[k], r, id)
    ensures exists g: nat, i: nat, p: nat :: Overlooks(run, moves, g, i, p, r)
    decreases k
  {
    assert run[0] == Init(n);
    assert StepAt(run, moves, k - 1);
    if HolderSafe(run[k - 1], r, id) {
      var (i, m) := (k - 1, moves[k - 1]);
      RunInv(n, run, moves, i);
      LosingStep(run[i], m, r, id);
      assert Removes(run, moves, i, m.p);
      var g := FindCount(n, run, moves, i, i, m.p);
      RemovalRace(n, run, moves, g, i, m.p, r);
      assert Overlooks(run, moves, g, i, m.p, r);
    } else {
      FindLoss(n, run, moves, k - 1, r, id);
    }
  }

  /** A run keeps every open set in existence if and only if no sem_close in it overlooks a sem_open. */
  lemma HoldersSafeExactly(n: nat, run: seq<State>, moves: seq<Move>)
    requires IsRun(n, run, moves)
    ensures HoldersSafe(run) <==> !exists g: nat, i: nat, p: nat, r: nat :: Overlooks(run, moves, g, i, p, r)
  {
    if g: nat, i: nat, p: nat, r: nat :| Overlooks(run, moves, g, i, p, r) {
      RemovalRace(n, run, moves, g, i, p, r);
      assert StepAt(run, moves, i);
      StandsStill(n, run, moves, g, i, p, i);
      NobodyAtCount(n, run, moves, g, i, p, p);
      var j :| g < j < i && moves[j] == Move(r, OpenOp);
      OthersKeep(run[i], p, CloseEnd, r);
      assert !HolderSafe(run[i + 1], r, run[i].gen);
    }
    if k: nat, r: nat, id: nat :| k < |run| && !HolderSafe(run[k], r, id) {
      FindLoss(n, run, moves, k, r, id);
      var g: nat, i: nat, p: nat :| Overlooks(run, moves, g, i, p, r);
    }
  }
}
