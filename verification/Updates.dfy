/**
 The reactive core and the scheduler of vue_stu/vue.js together: writes queue the watchers that
 read the cell, and the deferred flush runs them one by one and calls their callbacks, which may
 write cells, read computed properties and tear watchers down.  What the callback of the k-th run
 of a flush does is given by a script; a script is finite, so the scripts cover exactly the
 flushes that end.
 */
module Updates {
  import opened Basics
  import opened Reactive
  import S = Scheduler

  /** What the callback of the k-th run does, if it is called. */
  function Acts(script: seq<seq<Op>>, k: nat): seq<Op> {
    if k < |script| then script[k] else []
  }

  ghost predicate ActsOk(g: Graph, ops: seq<Op>) {
    forall i :: 0 <= i < |ops| ==> OpOk(g, ops[i]) && !ops[i].Rerun?
  }

  /** A watcher that is not lazy has its old value. */
  ghost predicate SameValue(g: Graph, h: Graph, w: nat)
    requires w < |g.ws| == |h.ws|
  {
    g.ws[w].lazy || h.ws[w].value == g.ws[w].value
  }

  ghost predicate SameValues(g: Graph, h: Graph) {
    |h.ws| == |g.ws| && forall w: nat :: w < |g.ws| ==> SameValue(g, h, w)
  }

  /** The operations done one after another: cells, teardowns, and no watcher that is not lazy has a new value. */
  ghost predicate Acted(g: Graph, h: Graph, ops: seq<Op>) {
    h.cells == Written(g.cells, ops) && SameProgram(Less(g, Downs(ops)), h) && SameValues(g, h)
  }

  /**
   One run of a flush takes graph g to h: an active watcher gets the value its getter means in g,
       the callback is called if and only if that is a new value, and then it does what its script says;
           the other watchers
   that are not lazy keep their values.
   */
  ghost predicate RunStep(g: Graph, h: Graph, w: nat, told: Option<(int, int)>, ops: seq<Op>) {
    && w < |g.ws| == |h.ws| && GettersOk(g) && GetterOk(g, w) && !g.ws[w].lazy
    && (g.ws[w].active ==> h.ws[w].value == Recall(g, g.ws[w].getter, w))
    && (!g.ws[w].active ==> h == g)
    && told == (if h.ws[w].value != g.ws[w].value then Some((h.ws[w].value, g.ws[w].value)) else None)
    && (forall v: nat :: v < |g.ws| && v != w ==> SameValue(g, h, v))
    && var acts := if told.Some? then ops else [];
       h.cells == Written(g.cells, acts) && SameProgram(Less(g, Downs(acts)), h)
  }

  /**
   Every active watcher that is not lazy is up to date or among these: its value is what its getter gives on clean
   caches (Reactive.FreshMeans says what that means).
   */
  ghost predicate UpToDateBut(g: Graph, ids: set<nat>) {
    GettersOk(g) && forall w: nat :: w < |g.ws| ==> w in ids || EagerAt(g, w)
  }

  /** The others have the value their getter means. */
  ghost predicate CurrentBut(g: Graph, ids: set<nat>) {
    GettersOk(g) && forall w: nat :: w < |g.ws| && w !in ids && !g.ws[w].lazy && g.ws[w].active ==> CurrentAt(g, w)
  }

  ghost predicate CurrentAt(g: Graph, w: nat)
    requires GettersOk(g) && w < |g.ws|
  {
    assert GetterOk(g, w);
    g.ws[w].value == Recall(g, g.ws[w].getter, w)
  }

  lemma UpToDateMeans(g: Graph, ids: set<nat>)
    requires Inv(g) && UpToDateBut(g, ids)
    ensures CurrentBut(g, ids)
  {
    InvCaches(g);
    forall w: nat | w < |g.ws| && w !in ids && !g.ws[w].lazy && g.ws[w].active ensures CurrentAt(g, w) {
      assert EagerAt(g, w);
      FreshMeans(g, w);
    }
  }

  class App {
    const rt: Runtime
    const sched: S.Scheduler

    /** Every active watcher that is not lazy is queued or up to date. */
    ghost predicate Covered()
      reads this, rt, sched
    {
      rt.Valid() && UpToDateBut(rt.g, sched.has) && forall w <- sched.has :: w < |rt.g.ws| && !rt.g.ws[w].lazy
    }

    ghost predicate Valid()
      reads this, rt, sched
    {
      Covered() && sched.Valid() && !sched.flushing
    }

    constructor (cells: seq<int>)
      ensures Valid() && rt.g.cells == cells && rt.g.ws == [] && fresh(rt) && fresh(sched) && sched.queue == []
    {
      rt := new Runtime(cells);
      sched := new S.Scheduler();
      new;
      AllRest(rt.g);
      S.IdsNone(sched.queue);
    }

    method Watch(getter: Expr, lazy: bool) returns (w: nat)
      requires Valid() && WellFormed(rt.g, getter, |rt.g.ws|)
      modifies rt
      ensures Valid() && Grown(old(rt.g), rt.g, getter, lazy) && w == |old(rt.g).ws|
    {
      hide Inv, GettersOk, EagerAt, KeepsRest, FreshAt;
      ghost var g := rt.g;
      AllRest(g);
      w := rt.NewWatcher(getter, lazy);
      AllRest(rt.g);
      forall v: nat | v < |rt.g.ws| ensures v in sched.has || EagerAt(rt.g, v) {
        if v == w {
          FreshEager(rt.g, v);
        } else if v !in sched.has {
          RestStays(g, rt.g, v);
          RestKept(g, rt.g);
          assert GrownAt(g, rt.g, v);
          if g.ws[v].lazy {
            FreshEager(rt.g, v);
          } else {
            EagerGrown(g, rt.g, getter, lazy, v);
          }
        }
      }
      forall v | v in sched.has ensures v < |rt.g.ws| && !rt.g.ws[v].lazy {
        assert GrownAt(g, rt.g, v);
      }
    }

    /** A write, between flushes or in a callback; asked are the watchers it queues. */
    method Write(c: nat, v: int) returns (ghost asked: seq<nat>)
      requires Covered() && sched.Valid() && c < |rt.g.cells|
      modifies rt, sched`queue, sched`has, sched`waiting, sched`scheduled
      ensures Covered() && sched.Valid()
      ensures rt.g.cells == old(rt.g).cells[c := v] && SameProgram(old(rt.g), rt.g) && SameValues(old(rt.g), rt.g)
      ensures asked == if v == old(rt.g).cells[c] then [] else Eager(old(rt.g), old(rt.g).subs[c])
      ensures sched.has == old(sched.has) + S.Ids(asked) && (asked == [] ==> sched.queue == old(sched.queue))
      ensures sched.flushing ==> sched.queue[..sched.index + 1] == old(sched.queue[..sched.index + 1])
    {
      hide Inv, GettersOk, EagerAt, SameProgram, MarkedUpTo, Eager, S.Ids, S.Insert, S.Ascending, NoDup, SameValues;
      ghost var g := rt.g;
      AllRest(g);
      var n := |rt.queued|;
      rt.SetCell(c, v);
      AllRest(rt.g);
      var more := rt.queued[n..];
      asked := more;
      EagerOnly(g, g.subs[c]);
      SameLazy(g, rt.g);
      S.IdsNone(more[..0]);
      S.IdsNone([]);
      for i := 0 to |more|
        modifies sched`queue, sched`has, sched`waiting, sched`scheduled
        invariant sched.Valid() && sched.has == old(sched.has) + S.Ids(more[..i])
        invariant sched.flushing ==> sched.queue[..sched.index + 1] == old(sched.queue[..sched.index + 1])
        invariant i == 0 ==> sched.queue == old(sched.queue)
      {
        S.IdsAdd(more[..i], [more[i]]);
        S.IdsOne(more[i]);
        assert more[..i] + [more[i]] == more[..i + 1];
        sched.QueueWatcher(more[i]);
      }
      assert more[..|more|] == more;
      IdsIn(more);
      WriteValues(g, rt.g, c, v);
      forall w: nat | w < |rt.g.ws| ensures w in sched.has || EagerAt(rt.g, w) {
        if w !in sched.has {
          EagerWrite(g, rt.g, c, v, w);
        }
      }
    }

    method Read(j: nat) returns (v: int)
      requires Covered() && j < |rt.g.ws| && rt.g.ws[j].lazy
      modifies rt
      ensures Covered() && rt.g.cells == old(rt.g).cells && SameProgram(old(rt.g), rt.g)
      ensures SameValues(old(rt.g), rt.g)
      ensures v == Recall(old(rt.g), Computed(j), j + 1)
    {
      hide Inv, GettersOk, EagerAt, SameProgram, UntouchedBut, Computes, Alive, Eval, RunningFrom, SameValues, Recall;
      ghost var g := rt.g;
      AllRest(g);
      Quiet(g, j + 1);
      v := rt.ReadComputed(j);
      AfterRead(g, rt.g, j, v);
      AllRest(rt.g);
      SameLazy(g, rt.g);
      RunValues(g, rt.g, None);
      forall w: nat | w < |rt.g.ws| ensures w in sched.has || EagerAt(rt.g, w) {
        if w !in sched.has {
          StaysUp(g, rt.g, None, w);
        }
      }
    }

    method Teardown(w: nat)
      requires Covered() && w < |rt.g.ws|
      modifies rt
      ensures Covered() && rt.g.cells == old(rt.g).cells && SameValues(old(rt.g), rt.g)
      ensures rt.g.ws == old(rt.g).ws[w := old(rt.g).ws[w].(active := false)]
    {
      hide Inv, GettersOk, EagerAt, SameCode, UntouchedBut;
      ghost var g := rt.g;
      AllRest(g);
      rt.Teardown(w);
      AllRest(rt.g);
      forall v: nat | v < |rt.g.ws| ensures v in sched.has || EagerAt(rt.g, v) {
        if v !in sched.has {
          EagerDown(g, rt.g, w, v);
        }
      }
    }

    /** One operation of a callback. */
    method Act(op: Op) returns (ghost asked: seq<nat>)
      requires Covered() && sched.Valid() && OpOk(rt.g, op) && !op.Rerun?
      modifies rt, sched`queue, sched`has, sched`waiting, sched`scheduled
      ensures Covered() && sched.Valid() && SameValues(old(rt.g), rt.g)
      ensures rt.g.cells == if op.Write? then old(rt.g).cells[op.c := op.v] else old(rt.g).cells
      ensures if op.Down? then Lost(old(rt.g), rt.g, op.w) else SameProgram(old(rt.g), rt.g)
      ensures sched.has == old(sched.has) + S.Ids(asked) && (asked == [] ==> sched.queue == old(sched.queue))
      ensures sched.flushing ==> sched.queue[..sched.index + 1] == old(sched.queue[..sched.index + 1])
    {
      hide Inv, GettersOk, EagerAt, SameProgram, S.Ids, SameValues, UpToDateBut;
      asked := [];
      S.IdsNone([]);
      match op
      case Write(c, v) => asked := Write(c, v);
      case Read(j) => var _ := Read(j);
      case Down(w) => Teardown(w);
    }

    /** A callback: its operations in order; asked are the watchers they queue. */
    method Callback(ops: seq<Op>) returns (ghost asked: seq<nat>)
      requires Covered() && sched.Valid() && ActsOk(rt.g, ops)
      modifies rt, sched`queue, sched`has, sched`waiting, sched`scheduled
      ensures Covered() && sched.Valid() && Acted(old(rt.g), rt.g, ops)
      ensures sched.has == old(sched.has) + S.Ids(asked)
      ensures ops == [] ==> asked == [] && sched.queue == old(sched.queue)
      ensures sched.flushing ==> sched.queue[..sched.index + 1] == old(sched.queue[..sched.index + 1])
    {
      hide Inv, GettersOk, EagerAt, SameProgram, S.Ids, SameValues, UpToDateBut, Less, Downs, Written, OpOk, Lost;
      ghost var g := rt.g;
      asked := [];
      S.IdsNone([]);
      ActedNone(g);
      for i := 0 to |ops|
        modifies rt, sched`queue, sched`has, sched`waiting, sched`scheduled
        invariant Covered() && sched.Valid() && Acted(g, rt.g, ops[..i]) && ActsOk(rt.g, ops)
        invariant sched.has == old(sched.has) + S.Ids(asked)
        invariant i == 0 ==> asked == [] && sched.queue == old(sched.queue)
        invariant sched.flushing ==> sched.queue[..sched.index + 1] == old(sched.queue[..sched.index + 1])
      {
        ghost var h := rt.g;
        ghost var more := Act(ops[i]);
        S.IdsAdd(asked, more);
        asked := asked + more;
        ActedMore(g, h, rt.g, ops, i);
      }
      assert ops[..|ops|] == ops;
    }

    /** The next run of a flush, with its callback. */
    method RunNext(ops: seq<Op>) returns (id: nat, told: Option<(int, int)>, ghost asked: seq<nat>)
      requires Covered() && sched.Turning() && sched.index < |sched.queue| && ActsOk(rt.g, ops)
      modifies rt, sched`queue, sched`has, sched`waiting, sched`scheduled
      ensures Covered() && sched.Valid() && sched.index < |sched.queue| && id == old(sched.queue[sched.index])
      ensures sched.queue[..sched.index + 1] == old(sched.queue[..sched.index + 1])
      ensures sched.has == old(sched.has) - {id} + S.Ids(asked)
      ensures told.None? || ops == [] ==> asked == [] && sched.queue == old(sched.queue)
      ensures RunStep(old(rt.g), rt.g, id, told, ops) && !rt.g.ws[id].lazy
    {
      hide Inv, GettersOk, EagerAt, SameProgram, UntouchedBut, FreshAt, S.Ids, S.Ascending, NoDup, S.Above;
      hide SameValues, Acted, RunStep, Recall, KeepsClean;
      ghost var g := rt.g;
      AllRest(g);
      id := sched.Take();
      told := rt.RunWatcher(id);
      ghost var h := rt.g;
      AllRest(h);
      SameLazy(g, h);
      RunValues(g, h, Some(id));
      FreshEager(h, id);
      forall v: nat | v < |h.ws| ensures v in sched.has || EagerAt(h, v) {
        if v != id && v !in sched.has {
          StaysUp(g, h, Some(id), v);
        }
      }
      SameActs(g, h, ops);
      ActedNone(h);
      asked := [];
      S.IdsNone([]);
      if told.Some? {
        asked := Callback(ops);
      }
      RunStepDone(g, h, rt.g, id, told, ops);
    }

    /**
     The deferred flush.  states are the graphs before each run and after the last.  Whoever is not up to date at
     some moment runs later or is dropped: so afterwards exactly those the guard has dropped may be stale.  asked is
     what each run has queued, and the flush is one of Scheduler.Flush for that script.
     */
    method Flush(script: seq<seq<Op>>)
      returns (ran: seq<nat>, told: seq<Option<(int, int)>>, stopped: bool, dropped: set<nat>,
               ghost states: seq<Graph>, ghost asked: seq<seq<nat>>)
      requires Valid() && sched.waiting && forall k: nat :: ActsOk(rt.g, Acts(script, k))
      modifies rt, sched
      ensures rt.Valid() && sched.Valid() && !sched.flushing && sched.queue == []
      ensures UpToDateBut(rt.g, dropped) && CurrentBut(rt.g, dropped) && (!stopped ==> Valid() && dropped == {})
      ensures forall w <- dropped :: w < |rt.g.ws| && !rt.g.ws[w].lazy
      ensures Trace(script, ran, told, states, asked) && states[0] == old(rt.g) && states[|ran|] == rt.g
      ensures AllDue(states, ran, dropped)
      ensures S.Ended(old(sched.has), asked, ran, stopped, dropped)
    {
      hide Inv, GettersOk, EagerAt, SameProgram, S.Ids, S.Ascending, NoDup, RunStep, UpToDateBut, S.Midway, S.Ended,
          AllDue, Trace, ActsOk, CurrentBut;
      hide S.Sort;
      ghost var initial := sched.has;
      sched.Begin();
      ran, told, stopped, states, asked := [], [], false, [rt.g], [];
      TraceStart(script, rt.g);
      S.Begun([], sched.queue);
      DueStart(rt.g, sched.has);
      while sched.index < |sched.queue| && !stopped
        modifies rt, sched
        invariant Covered() && (if stopped then sched.Valid() && sched.flushing else sched.Turning())
        invariant |ran| == sched.index + (if stopped then 1 else 0) <= |sched.queue| && ran == sched.queue[..|ran|]
        invariant Lengths(ran, told, states, asked) && Trace(script, ran, told, states, asked)
        invariant states[0] == old(rt.g) && states[|ran|] == rt.g && AllDue(states, ran, sched.has)
        invariant forall k: nat :: ActsOk(rt.g, Acts(script, k))
        invariant !stopped ==> S.Midway(initial, asked, sched.circular, sched.queue, sched.index, sched.has)
        invariant stopped ==> S.Ended(initial, asked, ran, true, sched.has)
        decreases !stopped, if sched.index < |script| then |script| - sched.index else 0, |sched.queue| - sched.index
      {
        ghost var (g, was, pending, counts, n) := (rt.g, sched.queue, sched.has, sched.circular, sched.index);
        var id, cb;
        ghost var calls;
        id, cb, calls := RunNext(Acts(script, sched.index));
        StillOk(g, rt.g, id, cb, Acts(script, n), script);
        S.MidwayNext(initial, asked, calls, counts, was, pending, sched.queue, n, sched.has);
        DueStep(states, ran, id, pending, sched.has, rt.g);
        TraceStep(script, ran, told, states, asked, id, cb, rt.g, calls);
        assert sched.queue[..n + 1] == was[..n] + [id];
        ran, told, states, asked := ran + [id], told + [cb], states + [rt.g], asked + [calls];
        stopped := sched.Check(id);
      }
      dropped := sched.has;
      if !stopped {
        S.End(initial, asked, sched.circular, sched.queue, sched.index, sched.has);
        assert sched.queue[..sched.index] == sched.queue;
        S.IdsNone(sched.queue[sched.index..]);
      }
      UpToDateMeans(rt.g, dropped);
      sched.Reset();
    }

    /**
     When the callbacks do nothing, each queued watcher runs once, in ascending order;
         nobody is stale, and the callbacks
     called are one for each watcher whose value has changed.
     */
    method FlushQuietly() returns (ran: seq<nat>, told: seq<Option<(int, int)>>)
      requires Valid() && sched.waiting
      modifies rt, sched
      ensures Valid() && sched.queue == [] && rt.g.cells == old(rt.g).cells && SameProgram(old(rt.g), rt.g)
      ensures S.Ascending(ran) && S.Ids(ran) == old(sched.has) && |told| == |ran|
      ensures (forall w: nat :: w < |rt.g.ws| ==> EagerAt(rt.g, w)) && CurrentBut(rt.g, {})
      ensures forall k: nat :: k < |ran| ==> ToldChange(old(rt.g), rt.g, ran[k], told[k])
      ensures forall w: nat :: w < |rt.g.ws| && w !in ran ==> SameValue(old(rt.g), rt.g, w)
    {
      hide Inv, GettersOk, EagerAt, SameProgram, S.Ids, S.Ascending, NoDup, RunStep, S.Ended, SameValue, ToldChange,
          CurrentBut;
      var stopped, dropped;
      ghost var states, asked;
      ghost var g := rt.g;
      ran, told, stopped, dropped, states, asked := Flush([]);
      forall k: nat | k < |ran| ensures S.Calls(asked, k) == []
          && RunStep(states[k], states[k + 1], ran[k], told[k], []) {
        assert RunStep(states[k], states[k + 1], ran[k], told[k], Acts([], k));
      }
      NothingAsked(asked, ran, old(sched.has), stopped, dropped);
      QuietFlush(states, ran, told);
    }

    /** Whoever the guard drops can be stale: a watcher whose callback keeps writing the cell it watches. */
    static method Runaway() returns (app: App, stopped: bool, dropped: set<nat>)
      ensures app.rt.Valid() && stopped && dropped == {0}
      ensures |app.rt.g.ws| == 1 && GettersOk(app.rt.g) && !EagerAt(app.rt.g, 0)
    {
      hide Inv, GettersOk, EagerAt, S.Ids, S.Ended, Trace, RunStep, AllDue, CurrentBut;
      app := new App([0]);
      var w := app.Watch(Cell(0), false);
      ghost var g := app.rt.g;
      OneEager(g);
      var n := S.MAX_UPDATE_COUNT + 2;
      ghost var _ := app.Write(0, 1);
      assert CodeAt(g, app.rt.g, 0) && ActiveAt(g, app.rt.g, 0) && SameValue(g, app.rt.g, 0);
      assert Chasing(app.rt.g, 0);
      ChaseStale(app.rt.g, 0);
      assert app.sched.has == {0};
      var script := seq(n, k requires 0 <= k < n => [Op.Write(0, k + 2)]);
      var ran, told;
      ghost var states, asked;
      ran, told, stopped, dropped, states, asked := app.Flush(script);
      Runs(script, ran, told, states, asked, stopped, dropped);
    }
  }

  /** One watcher, of cell 0, which is one step behind the cell. */
  ghost predicate Chasing(g: Graph, k: nat) {
    && g.cells == [k + 1] && |g.ws| == 1 && g.ws[0].getter == Cell(0) && !g.ws[0].lazy && g.ws[0].active
    && g.ws[0].value == k
  }

  lemma OneEager(g: Graph)
    requires GettersOk(g) && |g.ws| == 1 && g.ws[0].getter == Cell(0) && !g.ws[0].lazy && g.ws[0].active
    requires |g.cells| == 1 && EagerAt(g, 0)
    ensures g.ws[0].value == g.cells[0]
  {
  }

  lemma ChaseStale(g: Graph, k: nat)
    requires GettersOk(g) && Chasing(g, k)
    ensures !EagerAt(g, 0)
  {
    if EagerAt(g, 0) {
      OneEager(g);
    }
  }

  lemma {:induction false} Chase(script: seq<seq<Op>>, ran: seq<nat>, told: seq<Option<(int, int)>>, states: seq<Graph>,
                                 asked: seq<seq<nat>>, k: nat)
    requires Trace(script, ran, told, states, asked) && Chasing(states[0], 0) && k <= |ran| && k <= |script|
    requires forall j :: 0 <= j < |script| ==> script[j] == [Op.Write(0, j + 2)]
    ensures Chasing(states[k], k)
  {
    if k > 0 {
      Chase(script, ran, told, states, asked, k - 1);
      var (g, h, ops) := (states[k - 1], states[k], script[k - 1]);
      assert RunStep(g, h, ran[k - 1], told[k - 1], Acts(script, k - 1));
      assert ops[..0] == [] && Written(g.cells, ops) == [k + 1] && Downs(ops) == {};
      LessNoneSame(g, h);
      assert CodeAt(g, h, 0) && ActiveAt(g, h, 0);
    }
  }

  lemma {:induction false} ChaseCount(script: seq<seq<Op>>, ran: seq<nat>, asked: seq<seq<nat>>, n: nat)
    requires n <= |ran| && S.InOrder(asked, ran) && forall i :: 0 <= i < |ran| ==> ran[i] == 0
    ensures n < |ran| ==> S.SelfCalls(asked, ran[..n], 0) == n
    ensures n > 0 ==> S.SelfCalls(asked, ran[..n], 0) >= n - 1
  {
    if n > 0 {
      ChaseCount(script, ran, asked, n - 1);
      assert ran[..n][..n - 1] == ran[..n - 1];
      assert n < |ran| ==> ran[n] in S.Ids(S.Calls(asked, n - 1));
    }
  }

  lemma Runs(script: seq<seq<Op>>, ran: seq<nat>, told: seq<Option<(int, int)>>, states: seq<Graph>,
             asked: seq<seq<nat>>, stopped: bool, dropped: set<nat>)
    requires Trace(script, ran, told, states, asked) && AllDue(states, ran, dropped) && Chasing(states[0], 0)
    requires S.Ended({0}, asked, ran, stopped, dropped) && |script| == S.MAX_UPDATE_COUNT + 2
    requires forall j :: 0 <= j < |script| ==> script[j] == [Op.Write(0, j + 2)]
    ensures stopped && 0 in dropped && |states[|ran|].ws| == 1 && GettersOk(states[|ran|]) && !EagerAt(states[|ran|], 0)
  {
    hide EagerAt, GettersOk, S.Ids, S.SelfCalls, S.History, S.Upward;
    var n := |ran|;
    forall i: nat | i < n ensures ran[i] == 0 {
      OneWatcher(script, ran, told, states, asked, i);
    }
    ChaseCount(script, ran, asked, n);
    assert ran[..n] == ran;
    if !stopped || n > |script| {
      assert n <= S.MAX_UPDATE_COUNT + 2;
    }
    Chase(script, ran, told, states, asked, n);
    assert UpToDateBut(states[n], S.Ids(ran[n..]) + dropped);
    S.IdsNone(ran[n..]);
    ChaseStale(states[n], n);
  }

  lemma {:induction false} OneWatcher(script: seq<seq<Op>>, ran: seq<nat>, told: seq<Option<(int, int)>>,
                                      states: seq<Graph>, asked: seq<seq<nat>>, k: nat)
    requires Trace(script, ran, told, states, asked) && |states[0].ws| == 1 && k < |ran|
    ensures ran[k] == 0 && |states[k].ws| == 1
  {
    assert RunStep(states[k], states[k + 1], ran[k], told[k], Acts(script, k));
    if k > 0 {
      OneWatcher(script, ran, told, states, asked, k - 1);
      assert RunStep(states[k - 1], states[k], ran[k - 1], told[k - 1], Acts(script, k - 1));
    }
  }

  /** What a callback is told of a watcher's change. */
  ghost predicate ToldChange(g: Graph, h: Graph, w: nat, told: Option<(int, int)>) {
    && w < |g.ws| == |h.ws|
    && told == if h.ws[w].value != g.ws[w].value then Some((h.ws[w].value, g.ws[w].value)) else None
  }

  // ---------- the runs of a flush ----------

  lemma WriteValues(g: Graph, h: Graph, c: nat, v: int)
    requires c < |g.cells| && c < |g.subs|
    requires h == g || MarkedUpTo(g.(cells := g.cells[c := v]), h, g.subs[c])
    ensures SameValues(g, h)
  {
    forall w: nat | w < |g.ws| ensures w < |h.ws| && SameValue(g, h, w) {
      assert h == g || MarkedAt(g.(cells := g.cells[c := v]), h, g.subs[c], w);
    }
  }

  /** Running a watcher leaves the values of the others that are not lazy. */
  lemma RunValues(g: Graph, h: Graph, x: Option<nat>)
    requires Inv(g) && g.target.None? && UntouchedBut(g, h, x)
    ensures |h.ws| == |g.ws| && forall v: nat :: v < |g.ws| && x != Some(v) ==> SameValue(g, h, v)
    ensures x.None? ==> SameValues(g, h)
  {
    hide Inv;
    AllRest(g);
    forall v: nat | v < |g.ws| && x != Some(v) ensures SameValue(g, h, v) {
      if !g.ws[v].lazy {
        assert Resting(g, v);
        assert StillAt(g, h, v);
      }
    }
  }

  lemma ActedNone(g: Graph)
    ensures Acted(g, g, [])
  {
    LessNone(g);
  }

  lemma ActedMore(g: Graph, h: Graph, k: Graph, ops: seq<Op>, i: nat)
    requires i < |ops| && Acted(g, h, ops[..i]) && ActsOk(h, ops) && SameValues(h, k)
    requires k.cells == if ops[i].Write? then h.cells[ops[i].c := ops[i].v] else h.cells
    requires if ops[i].Down? then Lost(h, k, ops[i].w) else SameProgram(h, k)
    ensures Acted(g, k, ops[..i + 1]) && ActsOk(k, ops)
  {
    hide Less, SameProgram;
    var (op, downs) := (ops[i], Downs(ops[..i]));
    assert ops[..i + 1][..i] == ops[..i];
    assert Downs(ops[..i + 1]) == if op.Down? then downs + {op.w} else downs;
    ProgramStep(g, h, k, downs, op);
    LessSame(g, downs, h);
    ValuesTrans(g, h, k);
    OkStep(h, k, op);
    forall j | 0 <= j < |ops| ensures OpOk(k, ops[j]) {
      OkStays(h, k, ops[j]);
    }
  }

  lemma LessSame(g: Graph, downs: set<nat>, h: Graph)
    requires SameProgram(Less(g, downs), h)
    ensures SameCode(g, h)
  {
    forall w: nat | w < |g.ws| ensures CodeAt(g, h, w) {
      assert CodeAt(Less(g, downs), h, w);
    }
  }

  lemma ValuesTrans(g: Graph, h: Graph, k: Graph)
    requires SameValues(g, h) && SameValues(h, k) && SameCode(g, h)
    ensures SameValues(g, k)
  {
    forall w: nat | w < |g.ws| ensures SameValue(g, k, w) {
      assert SameValue(g, h, w) && SameValue(h, k, w) && CodeAt(g, h, w);
    }
  }

  lemma OkStep(g: Graph, h: Graph, op: Op)
    requires OpOk(g, op) && (if op.Down? then Lost(g, h, op.w) else SameProgram(g, h))
    ensures SameCode(g, h)
  {
  }

  lemma OkStays(g: Graph, h: Graph, op: Op)
    requires OpOk(g, op) && SameCode(g, h)
    ensures OpOk(h, op)
  {
    assert op.Read? ==> CodeAt(g, h, op.j);
    assert op.Rerun? ==> CodeAt(g, h, op.w);
  }

  lemma SameActs(g: Graph, h: Graph, ops: seq<Op>)
    requires SameCode(g, h) && ActsOk(g, ops)
    ensures ActsOk(h, ops)
  {
    forall j | 0 <= j < |ops| ensures OpOk(h, ops[j]) {
      OkStays(g, h, ops[j]);
    }
  }

  lemma RunStepDone(g: Graph, h: Graph, k: Graph, w: nat, told: Option<(int, int)>, ops: seq<Op>)
    requires GettersOk(g) && GettersOk(h) && w < |g.ws| == |h.ws| && SameProgram(g, h) && h.cells == g.cells
    requires !g.ws[w].lazy && GetterOk(g, w) && (h.ws[w].active ==> h.ws[w].value == Recall(g, g.ws[w].getter, w))
    requires !g.ws[w].active ==> h == g
    requires forall v: nat :: v < |g.ws| && v != w ==> SameValue(g, h, v)
    requires told == if h.ws[w].value != g.ws[w].value then Some((h.ws[w].value, g.ws[w].value)) else None
    requires if told.Some? then Acted(h, k, ops) else k == h
    ensures RunStep(g, k, w, told, ops) && !k.ws[w].lazy
  {
    assert CodeAt(g, h, w) && ActiveAt(g, h, w);
    hide GettersOk, Recall;
    if told.None? {
      ActedNone(h);
    }
    var acts := if told.Some? then ops else [];
    assert Acted(h, k, acts);
    LessSame(h, Downs(acts), k);
    assert SameValue(h, k, w) && CodeAt(h, k, w);
    forall v: nat | v < |g.ws| && v != w ensures SameValue(g, k, v) {
      assert SameValue(g, h, v) && SameValue(h, k, v) && CodeAt(g, h, v);
    }
    LessTrans(g, h, k, Downs(acts));
  }

  lemma LessTrans(g: Graph, h: Graph, k: Graph, downs: set<nat>)
    requires SameProgram(g, h) && SameProgram(Less(h, downs), k)
    ensures SameProgram(Less(g, downs), k)
  {
    var (l, m) := (Less(g, downs), Less(h, downs));
    forall w: nat | w < |g.ws| ensures CodeAt(l, k, w) && ActiveAt(l, k, w) {
      assert CodeAt(g, h, w) && ActiveAt(g, h, w) && CodeAt(m, k, w) && ActiveAt(m, k, w);
    }
  }

  lemma StillOk(g: Graph, h: Graph, w: nat, told: Option<(int, int)>, ops: seq<Op>, script: seq<seq<Op>>)
    requires RunStep(g, h, w, told, ops) && forall k: nat :: ActsOk(g, Acts(script, k))
    ensures forall k: nat :: ActsOk(h, Acts(script, k))
  {
    hide ActsOk, Acts;
    LessSame(g, Downs(if told.Some? then ops else []), h);
    forall k: nat ensures ActsOk(h, Acts(script, k)) {
      SameActs(g, h, Acts(script, k));
    }
  }

  ghost predicate Lengths(ran: seq<nat>, told: seq<Option<(int, int)>>, states: seq<Graph>, asked: seq<seq<nat>>) {
    |told| == |asked| == |ran| && |states| == |ran| + 1
  }

  /**
   The runs so far: each takes a state to the next, and one whose callback is not called, or does nothing, asks for
   nothing.
   */
  ghost predicate Trace(script: seq<seq<Op>>, ran: seq<nat>, told: seq<Option<(int, int)>>, states: seq<Graph>,
                        asked: seq<seq<nat>>) {
    && Lengths(ran, told, states, asked)
    && (forall k: nat :: k < |ran| ==> RunStep(states[k], states[k + 1], ran[k], told[k], Acts(script, k)))
    && (forall k: nat :: k < |ran| && (told[k].None? || Acts(script, k) == []) ==> asked[k] == [])
  }

  lemma TraceStart(script: seq<seq<Op>>, g: Graph)
    ensures Trace(script, [], [], [g], [])
  {
  }

  lemma TraceStep(script: seq<seq<Op>>, ran: seq<nat>, told: seq<Option<(int, int)>>, states: seq<Graph>,
                  asked: seq<seq<nat>>, id: nat, cb: Option<(int, int)>, g: Graph, calls: seq<nat>)
    requires Trace(script, ran, told, states, asked) && RunStep(states[|ran|], g, id, cb, Acts(script, |ran|))
    requires cb.None? || Acts(script, |ran|) == [] ==> calls == []
    ensures Trace(script, ran + [id], told + [cb], states + [g], asked + [calls])
  {
    hide RunStep, Acts;
    var (ran', told', states', asked') := (ran + [id], told + [cb], states + [g], asked + [calls]);
    forall k: nat | k < |ran'| ensures RunStep(states'[k], states'[k + 1], ran'[k], told'[k], Acts(script, k)) {
    }
  }

  ghost predicate AllDue(states: seq<Graph>, ran: seq<nat>, pending: set<nat>)
    requires |states| == |ran| + 1
  {
    forall k: nat :: k <= |ran| ==> UpToDateBut(states[k], S.Ids(ran[k..]) + pending)
  }

  lemma DueStart(g: Graph, pending: set<nat>)
    requires UpToDateBut(g, pending)
    ensures AllDue([g], [], pending)
  {
  }

  /** Whoever was due before the run of id runs now, or is still pending. */
  lemma DueStep(states: seq<Graph>, ran: seq<nat>, id: nat, pending: set<nat>, pending': set<nat>, g: Graph)
    requires |states| == |ran| + 1 && AllDue(states, ran, pending)
    requires pending - {id} <= pending' && UpToDateBut(g, pending')
    ensures AllDue(states + [g], ran + [id], pending')
  {
    hide S.Ids;
    var (states', ran') := (states + [g], ran + [id]);
    forall k: nat | k <= |ran'| ensures UpToDateBut(states'[k], S.Ids(ran'[k..]) + pending') {
      if k <= |ran| {
        assert UpToDateBut(states[k], S.Ids(ran[k..]) + pending);
        assert ran'[k..] == ran[k..] + [id];
        S.IdsAdd(ran[k..], [id]);
        S.IdsOne(id);
      }
    }
  }

  lemma {:induction false} QuietChain(states: seq<Graph>, ran: seq<nat>, told: seq<Option<(int, int)>>, i: nat, j: nat)
    requires |states| == |ran| + 1 && |told| == |ran| && i <= j <= |ran|
    requires forall k: nat :: k < |ran| ==> RunStep(states[k], states[k + 1], ran[k], told[k], [])
    ensures states[j].cells == states[i].cells && SameProgram(states[i], states[j])
    ensures forall w: nat :: w < |states[i].ws| && w !in ran[i..j] ==>
              w < |states[j].ws| && SameValue(states[i], states[j], w)
    decreases j
  {
    if i == j {
      SameSelf(states[i]);
    } else {
      QuietChain(states, ran, told, i, j - 1);
      var (g, h, k) := (states[i], states[j - 1], states[j]);
      assert RunStep(h, k, ran[j - 1], told[j - 1], []);
      LessNone(h);
      LessNoneSame(h, k);
      SameProgramTrans(g, h, k);
      assert ran[i..j] == ran[i..j - 1] + [ran[j - 1]];
      forall w: nat | w < |g.ws| && w !in ran[i..j] ensures SameValue(g, k, w) {
        assert SameValue(g, h, w) && SameValue(h, k, w) && CodeAt(g, h, w);
      }
    }
  }

  lemma LessNoneSame(g: Graph, h: Graph)
    requires SameProgram(Less(g, {}), h)
    ensures SameProgram(g, h)
  {
    var l := Less(g, {});
    forall w: nat | w < |g.ws| ensures CodeAt(g, h, w) && ActiveAt(g, h, w) {
      assert CodeAt(l, h, w) && ActiveAt(l, h, w);
    }
  }

  lemma QuietFlush(states: seq<Graph>, ran: seq<nat>, told: seq<Option<(int, int)>>)
    requires |states| == |ran| + 1 && |told| == |ran| && S.Ascending(ran)
    requires forall k: nat :: k < |ran| ==> RunStep(states[k], states[k + 1], ran[k], told[k], [])
    ensures var (g, h) := (states[0], states[|ran|]);
            && h.cells == g.cells && SameProgram(g, h)
            && (forall k: nat :: k < |ran| ==> ToldChange(g, h, ran[k], told[k]))
            && forall w: nat :: w < |h.ws| && w !in ran ==> w < |g.ws| == |h.ws| && SameValue(g, h, w)
  {
    hide SameProgram;
    var (g, h, n) := (states[0], states[|ran|], |ran|);
    QuietChain(states, ran, told, 0, n);
    SameLazy(g, h);
    assert ran[0..n] == ran;
    forall k: nat | k < n ensures ToldChange(g, h, ran[k], told[k]) {
      assert RunStep(states[k], states[k + 1], ran[k], told[k], []);
      QuietChain(states, ran, told, 0, k);
      QuietChain(states, ran, told, k + 1, n);
      QuietChain(states, ran, told, k, k + 1);
      SameLazy(g, states[k]);
      SameLazy(states[k], states[k + 1]);
      assert SameValue(g, states[k], ran[k]) && SameValue(states[k + 1], h, ran[k]);
    }
  }

  lemma SameProgramTrans(g: Graph, h: Graph, i: Graph)
    requires SameProgram(g, h) && SameProgram(h, i)
    ensures SameProgram(g, i)
  {
    forall w: nat | w < |g.ws| ensures CodeAt(g, i, w) && ActiveAt(g, i, w) {
      assert CodeAt(g, h, w) && ActiveAt(g, h, w) && CodeAt(h, i, w) && ActiveAt(h, i, w);
    }
  }

  lemma FreshEager(g: Graph, w: nat)
    requires GettersOk(g) && w < |g.ws| && (!g.ws[w].lazy && g.ws[w].active ==> FreshAt(g, w))
    ensures EagerAt(g, w)
  {
  }

  lemma RestKept(g: Graph, h: Graph)
    requires Inv(g) && g.target.None? && KeepsRest(g, h)
    ensures KeepsClean(g, h)
  {
    hide Inv;
    AllRest(g);
    forall j: nat | j < |g.ws| && g.ws[j].lazy && !g.ws[j].dirty ensures SameCacheAt(g, h, j) {
      assert Resting(g, j);
      assert KeptRest(g, h, j);
    }
  }

  /** A watcher that is not lazy is at rest between operations. */
  lemma RestStays(g: Graph, h: Graph, v: nat)
    requires Inv(g) && g.target.None? && KeepsRest(g, h) && v < |g.ws| && GettersOk(g) && EagerAt(g, v)
    ensures v < |h.ws| && (!g.ws[v].lazy ==> h.ws[v] == g.ws[v])
  {
    AllRest(g);
    if !g.ws[v].lazy {
      assert Resting(g, v);
      assert KeptRest(g, h, v);
    }
  }

  /** Evaluating others leaves a watcher up to date. */
  lemma StaysUp(g: Graph, h: Graph, x: Option<nat>, w: nat)
    requires Inv(g) && g.target.None? && GettersOk(g) && GettersOk(h) && SameProgram(g, h) && h.cells == g.cells
    requires w < |g.ws| == |h.ws| && UntouchedBut(g, h, x) && x != Some(w) && EagerAt(g, w)
    requires x.Some? ==> x.value < |g.ws| && !g.ws[x.value].lazy
    ensures EagerAt(h, w)
  {
    AllRest(g);
    RestClean(g, h, x);
    assert CodeAt(g, h, w);
    if !g.ws[w].lazy {
      assert Resting(g, w);
      assert StillAt(g, h, w);
      EagerKept(g, h, w);
    }
  }

  lemma SameLazy(g: Graph, h: Graph)
    requires SameProgram(g, h)
    ensures |h.ws| == |g.ws| && SameCode(g, h) && forall w :: 0 <= w < |g.ws| ==> h.ws[w].lazy == g.ws[w].lazy
  {
    forall w: nat | w < |g.ws| ensures h.ws[w].lazy == g.ws[w].lazy {
      assert CodeAt(g, h, w);
    }
  }

  lemma IdsIn(s: seq<nat>)
    ensures forall w: nat :: w in S.Ids(s) <==> w in s
  {
  }

  /** A flush whose watchers queue nothing runs each queued watcher once, in ascending order. */
  lemma NothingAsked(asked: seq<seq<nat>>, ran: seq<nat>, initial: set<nat>, stopped: bool, dropped: set<nat>)
    requires S.Ended(initial, asked, ran, stopped, dropped) && forall k: nat :: k < |ran| ==> S.Calls(asked, k) == []
    ensures S.Ascending(ran) && S.Ids(ran) == initial && !stopped && dropped == {}
  {
    hide S.Calls;
    assert S.Upward(asked, ran) by {
      forall k: nat | k < |ran| ensures S.Above(S.Ids(S.Calls(asked, k)), ran[k]) {
        S.IdsNone(S.Calls(asked, k));
      }
    }
    NothingRequested(asked, |ran|);
  }

  lemma {:induction false} NothingRequested(asked: seq<seq<nat>>, n: nat)
    requires forall k: nat :: k < n ==> S.Calls(asked, k) == []
    ensures S.Requested(asked, n) == {}
  {
    if n > 0 {
      NothingRequested(asked, n - 1);
      S.IdsNone(S.Calls(asked, n - 1));
    }
  }
}
