/**
 The watcher scheduler of vue_stu/vue.js: a queue of watchers, kept free of duplicates by a table
 of queued ids, that is sorted and drained by one deferred flush and may be edited by the watchers
 it runs.  A watcher is its id.  What the k-th run of a flush queues is given by a script; a script
 is finite, so the scripts cover exactly the flushes that end.
 */
module Scheduler {
  import opened Basics

  const MAX_UPDATE_COUNT := 100

  predicate Ascending(s: seq<nat>) {
    forall i, j :: 0 <= i < j < |s| ==> s[i] < s[j]
  }

  function Ids(s: seq<nat>): set<nat> {
    set i | 0 <= i < |s| :: s[i]
  }

  lemma IdsAdd(a: seq<nat>, b: seq<nat>)
    ensures Ids(a + b) == Ids(a) + Ids(b)
  {
    forall x | x in Ids(a) + Ids(b)
      ensures x in Ids(a + b)
    {
      if x in Ids(a) {
        var i :| 0 <= i < |a| && a[i] == x;
        assert (a + b)[i] == x;
      } else {
        var i :| 0 <= i < |b| && b[i] == x;
        assert (a + b)[|a| + i] == x;
      }
    }
  }

  /** Where a new id goes in an ascending queue. */
  function Insert(s: seq<nat>, x: nat): (r: seq<nat>)
    requires Ascending(s) && x !in Ids(s)
    ensures Ascending(r) && Ids(r) == Ids(s) + {x}
  {
    var k := Place(s, x);
    InsertAscends(s, x, k);
    InsertIds(s, x, k);
    s[..k] + [x] + s[k..]
  }

  lemma InsertIds(s: seq<nat>, x: nat, k: nat)
    requires k <= |s|
    ensures Ids(s[..k] + [x] + s[k..]) == Ids(s) + {x}
  {
    IdsAdd(s[..k], s[k..]);
    IdsAdd(s[..k], [x]);
    IdsAdd(s[..k] + [x], s[k..]);
    IdsOne(x);
    assert s[..k] + s[k..] == s;
  }

  lemma InsertAscends(s: seq<nat>, x: nat, k: nat)
    requires Ascending(s) && x !in Ids(s) && k <= |s|
    requires (forall i :: 0 <= i < k ==> s[i] < x) && (forall i :: k <= i < |s| ==> x <= s[i])
    ensures Ascending(s[..k] + [x] + s[k..])
  {
    var r := s[..k] + [x] + s[k..];
    forall i, j | 0 <= i < j < |r|
      ensures r[i] < r[j]
    {
      assert r[j] == if j < k then s[j] else if j == k then x else s[j - 1];
      assert i >= k || r[i] == s[i];
      if i == k {
        assert s[j - 1] in Ids(s);
      }
    }
  }

  /** The first position whose id is not below x. */
  function Place(s: seq<nat>, x: nat): (k: nat)
    requires Ascending(s)
    ensures k <= |s| && (forall i :: 0 <= i < k ==> s[i] < x) && (forall i :: k <= i < |s| ==> x <= s[i])
  {
    if s == [] || x <= s[0] then 0 else assert forall i :: 0 < i < |s| ==> s[i] == s[1..][i - 1]; 1 + Place(s[1..], x)
  }

  /** Array.prototype.sort by id. */
  function Sort(s: seq<nat>): (r: seq<nat>)
    requires NoDup(s)
    ensures Ascending(r) && Ids(r) == Ids(s)
  {
    if s == [] then []
    else
      var n := |s| - 1;
      assert s == s[..n] + [s[n]];
      IdsAdd(s[..n], [s[n]]);
      Insert(Sort(s[..n]), s[n])
  }

  // ---------- what a flush may have done ----------

  function Calls(script: seq<seq<nat>>, k: nat): seq<nat> {
    if k < |script| then script[k] else []
  }

  /** Some run from `from` on and before `to` queues id. */
  predicate Asked(script: seq<seq<nat>>, from: nat, to: nat, id: nat) {
    exists k :: from <= k < to && id in Ids(Calls(script, k))
  }

  /** The k-th run's requests are answered: by a later run, or they are still pending. */
  predicate Answered(script: seq<seq<nat>>, ran: seq<nat>, pending: set<nat>, k: nat)
    requires k < |ran|
  {
    forall id :: id in Ids(Calls(script, k)) ==> id in Ids(ran[k + 1..]) || id in pending
  }

  /** Run m is due: to the first queue or to a request that no run before it has answered. */
  predicate Due(initial: set<nat>, script: seq<seq<nat>>, ran: seq<nat>, m: nat, id: nat)
    requires m <= |ran|
  {
    && (id in initial || Asked(script, 0, m, id))
    && (forall n :: 0 <= n < m && ran[n] == id ==> Asked(script, n, m, id))
  }

  /** Conservation: nothing asked for is lost, and nothing runs that was not asked for since it last ran. */
  predicate History(initial: set<nat>, script: seq<seq<nat>>, ran: seq<nat>, pending: set<nat>) {
    && initial <= Ids(ran) + pending
    && (forall k: nat :: k < |ran| ==> Answered(script, ran, pending, k))
    && (forall m: nat :: m < |ran| ==> Due(initial, script, ran, m, ran[m]))
    && (forall id :: id in pending ==> Due(initial, script, ran, |ran|, id))
  }

  /** Ids run in ascending order, except that a request for one no larger is met next. */
  predicate InOrder(script: seq<seq<nat>>, ran: seq<nat>) {
    forall k :: 0 < k < |ran| && ran[k] <= ran[k - 1] ==> ran[k] in Ids(Calls(script, k - 1))
  }

  /** How often a watcher's own run has queued it again. */
  function SelfCalls(script: seq<seq<nat>>, ran: seq<nat>, id: nat): nat {
    if ran == [] then 0
    else
      var n := |ran| - 1;
      SelfCalls(script, ran[..n], id) + if ran[n] == id && id in Ids(Calls(script, n)) then 1 else 0
  }

  lemma AnsweredStep(script: seq<seq<nat>>, ran: seq<nat>, pending: set<nat>, id: nat, k: nat)
    requires id in pending && k <= |ran| && (k < |ran| ==> Answered(script, ran, pending, k))
    ensures Answered(script, ran + [id], pending - {id} + Ids(Calls(script, |ran|)), k)
  {
    var ran' := ran + [id];
    if k < |ran| {
      assert ran'[k + 1..] == ran[k + 1..] + [id];
      IdsAdd(ran[k + 1..], [id]);
      IdsOne(id);
    }
  }

  lemma DueStep(initial: set<nat>, script: seq<seq<nat>>, ran: seq<nat>, m: nat, x: nat, id: nat)
    requires m <= |ran| && Due(initial, script, ran, m, x)
    ensures Due(initial, script, ran + [id], m, x)
  {
    assert forall n :: 0 <= n < m ==> (ran + [id])[n] == ran[n];
  }

  lemma AskedLater(script: seq<seq<nat>>, from: nat, to: nat, id: nat)
    requires Asked(script, from, to, id)
    ensures Asked(script, from, to + 1, id)
  {
  }

  /** What is pending after a run was pending before and is not what ran, or the run asked for it. */
  lemma PendingStep(initial: set<nat>, script: seq<seq<nat>>, ran: seq<nat>, pending: set<nat>, id: nat, x: nat)
    requires id in pending && History(initial, script, ran, pending)
    requires x in pending - {id} + Ids(Calls(script, |ran|))
    ensures Due(initial, script, ran + [id], |ran| + 1, x)
  {
    var (ran', n) := (ran + [id], |ran|);
    if x in Ids(Calls(script, n)) {
      var to := n + 1;
      forall m: nat | m <= n
        ensures Asked(script, m, to, x)
      {
      }
    } else {
      assert Due(initial, script, ran, n, x);
      forall m | 0 <= m < n + 1 && ran'[m] == x
        ensures Asked(script, m, n + 1, x)
      {
        AskedLater(script, m, n, x);
      }
      if x !in initial {
        AskedLater(script, 0, n, x);
      }
    }
  }

  /** One run of a flush: the id leaves the pending ones, what it asks for joins them. */
  lemma HistoryStep(initial: set<nat>, script: seq<seq<nat>>, ran: seq<nat>, pending: set<nat>, id: nat)
    requires id in pending && History(initial, script, ran, pending)
    ensures History(initial, script, ran + [id], pending - {id} + Ids(Calls(script, |ran|)))
  {
    hide Due, Answered, Ids;
    var (ran', pending') := (ran + [id], pending - {id} + Ids(Calls(script, |ran|)));
    IdsAdd(ran, [id]);
    assert id in Ids([id]) by { IdsOne(id); }
    forall k: nat | k < |ran'|
      ensures Answered(script, ran', pending', k)
    {
      AnsweredStep(script, ran, pending, id, k);
    }
    forall m: nat | m < |ran'|
      ensures Due(initial, script, ran', m, ran'[m])
    {
      DueStep(initial, script, ran, m, ran'[m], id);
    }
    forall x | x in pending'
      ensures Due(initial, script, ran', |ran'|, x)
    {
      PendingStep(initial, script, ran, pending, id, x);
    }
  }

  lemma IdsNone(s: seq<nat>)
    requires s == []
    ensures Ids(s) == {} && NoDup(s)
  {
  }

  lemma IdsOne(id: nat)
    ensures Ids([id]) == {id}
  {
    assert [id][0] == id;
  }

  ghost predicate Counts(circular: map<nat, nat>, script: seq<seq<nat>>, ran: seq<nat>) {
    forall id :: SelfCalls(script, ran, id) == if id in circular then circular[id] else 0
  }

  lemma LastCount(circular: map<nat, nat>, script: seq<seq<nat>>, ran: seq<nat>, id: nat)
    requires Counts(circular, script, ran) && id in circular
    ensures SelfCalls(script, ran, id) == circular[id]
  {
  }

  ghost predicate Bounded(script: seq<seq<nat>>, ran: seq<nat>) {
    forall id :: SelfCalls(script, ran, id) <= MAX_UPDATE_COUNT
  }

  /** The table of the guard counts the runs that queued their own watcher. */
  lemma CountStep(circular: map<nat, nat>, script: seq<seq<nat>>, ran: seq<nat>, id: nat)
    requires Counts(circular, script, ran) && Bounded(script, ran)
    ensures var n := (if id in circular then circular[id] else 0) + 1;
            if id in Ids(Calls(script, |ran|))
            then Counts(circular[id := n], script, ran + [id])
                && (n <= MAX_UPDATE_COUNT ==> Bounded(script, ran + [id]))
            else Counts(circular, script, ran + [id]) && Bounded(script, ran + [id])
    ensures id in circular ==> circular[id] <= MAX_UPDATE_COUNT
  {
    var ran' := ran + [id];
    assert ran'[..|ran|] == ran;
    assert SelfCalls(script, ran, id) <= MAX_UPDATE_COUNT;
    assert forall x :: SelfCalls(script, ran', x) ==
                       SelfCalls(script, ran, x) + if id == x && x in Ids(Calls(script, |ran|)) then 1 else 0;
  }

  predicate Above(ids: set<nat>, id: nat) {
    forall x :: x in ids ==> x > id
  }

  lemma OrderStep(script: seq<seq<nat>>, ran: seq<nat>, id: nat)
    requires InOrder(script, ran)
    requires ran != [] && id <= ran[|ran| - 1] ==> id in Ids(Calls(script, |ran| - 1))
    ensures InOrder(script, ran + [id])
  {
  }

  /** The first id still to come, and the rest. */
  lemma NextUp(queue: seq<nat>, index: nat)
    requires index < |queue| && Ascending(queue[index..])
    ensures Ascending(queue[index + 1..]) && queue[index] in Ids(queue[index..])
    ensures Ids(queue[index + 1..]) == Ids(queue[index..]) - {queue[index]}
    ensures Above(Ids(queue[index + 1..]), queue[index])
  {
    var (rest, tail) := (queue[index..], queue[index + 1..]);
    assert rest == [queue[index]] + tail;
    IdsAdd([queue[index]], tail);
    IdsOne(queue[index]);
    forall k | 0 <= k < |tail|
      ensures tail[k] > queue[index]
    {
      assert tail[k] == rest[k + 1] && rest[0] < rest[k + 1];
    }
  }

  /** After a run, an id that comes next and is not above the one that ran was asked for by that run. */
  lemma NextCall(queue: seq<nat>, index: nat, id: nat, calls: seq<nat>, pending: set<nat>)
    requires index < |queue| && Ids(queue[index + 1..]) == pending - {id} + Ids(calls)
    requires Above(pending - {id}, id)
    ensures index + 1 < |queue| && queue[index + 1] <= id ==> queue[index + 1] in Ids(calls)
    ensures id in Ids(queue[index + 1..]) <==> id in Ids(calls)
  {
    if index + 1 < |queue| {
      assert queue[index + 1] == queue[index + 1..][0];
      assert queue[index + 1] in Ids(queue[index + 1..]);
    }
  }

  /** No run queues a watcher that is not above its own. */
  predicate Upward(script: seq<seq<nat>>, ran: seq<nat>) {
    forall k: nat :: k < |ran| ==> Above(Ids(Calls(script, k)), ran[k])
  }

  function Requested(script: seq<seq<nat>>, n: nat): set<nat> {
    if n == 0 then {} else Requested(script, n - 1) + Ids(Calls(script, n - 1))
  }

  lemma {:induction false} RequestedAsked(script: seq<seq<nat>>, n: nat, id: nat)
    ensures id in Requested(script, n) <==> Asked(script, 0, n, id)
  {
    if n > 0 {
      RequestedAsked(script, n - 1, id);
    }
  }

  lemma {:induction false} Climbs(script: seq<seq<nat>>, ran: seq<nat>, i: nat, j: nat)
    requires InOrder(script, ran) && Upward(script, ran) && i < j < |ran|
    ensures ran[i] < ran[j]
    decreases j
  {
    assert Above(Ids(Calls(script, j - 1)), ran[j - 1]);
    if i < j - 1 {
      Climbs(script, ran, i, j - 1);
    }
  }

  lemma {:induction false} NoSelfCalls(script: seq<seq<nat>>, ran: seq<nat>, n: nat, id: nat)
    requires Upward(script, ran) && n <= |ran|
    ensures SelfCalls(script, ran[..n], id) == 0
  {
    if n > 0 {
      assert ran[..n][..n - 1] == ran[..n - 1];
      assert Above(Ids(Calls(script, n - 1)), ran[n - 1]);
      NoSelfCalls(script, ran, n - 1, id);
    }
  }

  /**
   When every run queues only watchers above its own, as a parent's update does, a flush runs each watcher that
   was queued or is asked for exactly once, in strictly ascending order, and the guard never stops it.
   */
  lemma UpwardOnce(initial: set<nat>, script: seq<seq<nat>>, ran: seq<nat>, dropped: set<nat>)
    requires History(initial, script, ran, dropped) && InOrder(script, ran) && Upward(script, ran)
    ensures Ascending(ran) && (forall id :: SelfCalls(script, ran, id) == 0)
    ensures dropped == {} ==> Ids(ran) == initial + Requested(script, |ran|)
  {
    forall i, j | 0 <= i < j < |ran|
      ensures ran[i] < ran[j]
    {
      Climbs(script, ran, i, j);
    }
    forall id
      ensures SelfCalls(script, ran, id) == 0
    {
      assert ran[..|ran|] == ran;
      NoSelfCalls(script, ran, |ran|, id);
    }
    if dropped == {} {
      forall id | id in Ids(ran)
        ensures id in initial + Requested(script, |ran|)
      {
        RanWasAsked(initial, script, ran, id);
      }
      forall id | id in Requested(script, |ran|)
        ensures id in Ids(ran)
      {
        AskedRan(initial, script, ran, id);
      }
    }
  }

  lemma RanWasAsked(initial: set<nat>, script: seq<seq<nat>>, ran: seq<nat>, id: nat)
    requires History(initial, script, ran, {}) && id in Ids(ran)
    ensures id in initial + Requested(script, |ran|)
  {
    var m :| 0 <= m < |ran| && ran[m] == id;
    assert Due(initial, script, ran, m, id);
    if id !in initial {
      var k :| 0 <= k < m && id in Ids(Calls(script, k));
      assert Asked(script, 0, |ran|, id);
      RequestedAsked(script, |ran|, id);
    }
  }

  lemma AskedRan(initial: set<nat>, script: seq<seq<nat>>, ran: seq<nat>, id: nat)
    requires History(initial, script, ran, {}) && id in Requested(script, |ran|)
    ensures id in Ids(ran)
  {
    hide Ids, Due, Requested, Calls;
    RequestedAsked(script, |ran|, id);
    var k :| 0 <= k < |ran| && id in Ids(Calls(script, k));
    assert Answered(script, ran, {}, k);
    IdsTail(ran, k + 1, id);
  }

  lemma IdsTail(s: seq<nat>, k: nat, x: nat)
    requires k <= |s| && x in Ids(s[k..])
    ensures x in Ids(s)
  {
    var i :| 0 <= i < |s| - k && s[k..][i] == x;
    assert s[k + i] == x;
  }

  /** Such a flush ends: with ids below a bound it makes at most that many runs, whatever the script. */
  lemma {:induction false} UpwardEnds(script: seq<seq<nat>>, ran: seq<nat>, bound: nat)
    requires InOrder(script, ran) && Upward(script, ran) && forall i :: 0 <= i < |ran| ==> ran[i] < bound
    ensures |ran| <= bound
  {
    if ran != [] {
      Rises(script, ran, |ran| - 1);
    }
  }

  lemma {:induction false} Rises(script: seq<seq<nat>>, ran: seq<nat>, k: nat)
    requires InOrder(script, ran) && Upward(script, ran) && k < |ran|
    ensures ran[k] >= k
  {
    if k > 0 {
      Rises(script, ran, k - 1);
      Climbs(script, ran, k - 1, k);
    }
  }

  // ---------- the scheduler ----------

  class Scheduler {
    var queue: seq<nat>
    var has: set<nat>
    var circular: map<nat, nat>
    var waiting: bool
    var flushing: bool
    var index: nat
    /** Flushes handed to nextTick and not yet begun. */
    var scheduled: nat

    /**
     Between flushes the queued ids are distinct and one flush is scheduled exactly when there are any.  During
     a flush the part of the queue still to come is strictly ascending, and no flush is scheduled.
     */
    ghost predicate Valid()
      reads this
    {
      if !flushing then
        NoDup(queue) && has == Ids(queue) && waiting == (queue != []) && scheduled == (if waiting then 1 else 0)
            && circular == map[]
      else
        index < |queue| && Ascending(queue[index + 1..]) && has == Ids(queue[index + 1..]) && waiting && scheduled == 0
    }

    constructor ()
      ensures Valid() && !flushing && queue == []
    {
      queue, has, circular, waiting, flushing, index, scheduled := [], {}, map[], false, false, 0, 0;
    }

    /** queueWatcher */
    method QueueWatcher(id: nat)
      requires Valid()
      modifies this`queue, this`has, this`waiting, this`scheduled
      ensures Valid() && has == old(has) + {id}
      ensures id in old(has) ==> queue == old(queue)
      ensures id !in old(has) && !flushing ==> queue == old(queue) + [id]
      ensures flushing && id !in old(has) ==>
                |queue| == |old(queue)| + 1 && queue[..index + 1] == old(queue[..index + 1]) &&
                queue[index + 1..] == Insert(old(queue[index + 1..]), id)
    {
      hide Ids, Ascending, NoDup, Insert;
      if id !in has {
        has := has + {id};
        if !flushing {
          queue := queue + [id];
          IdsAdd(old(queue), [id]);
          IdsOne(id);
          DistinctAdd(old(queue), id);
        } else {
          var i := |queue| - 1;
          while i >= 0 && queue[i] > id
            invariant -1 <= i < |queue|
            invariant forall k :: i < k < |queue| ==> queue[k] > id
          {
            i := i - 1;
          }
          var at := (if i > index then i else index) + 1;
          Splice(queue, index, i, at, id);
          queue := queue[..at] + [id] + queue[at..];
        }
        if !waiting {
          waiting := true;
          scheduled := scheduled + 1;
        }
      }
    }

    /** A watcher's run, as far as the scheduler sees it: the watchers it causes to be queued. */
    method RunWatcher(calls: seq<nat>)
      requires Valid() && flushing
      modifies this`queue, this`has, this`waiting, this`scheduled
      ensures Valid() && has == old(has) + Ids(calls) && index < |old(queue)| && index < |queue|
      ensures queue[..index + 1] == old(queue[..index + 1]) && (calls == [] ==> queue == old(queue))
    {
      hide Ids, Ascending, NoDup, Insert;
      assert Ids(calls[..0]) == {} by { IdsNone(calls[..0]); }
      for n := 0 to |calls|
        invariant Valid() && has == old(has) + Ids(calls[..n])
        invariant queue[..index + 1] == old(queue[..index + 1]) && (n == 0 ==> queue == old(queue))
      {
        QueueWatcher(calls[n]);
        IdsAdd(calls[..n], [calls[n]]);
        IdsOne(calls[n]);
        assert calls[..n] + [calls[n]] == calls[..n + 1];
      }
      assert calls[..|calls|] == calls;
    }

    /** Between two runs of a flush: what is to come stands from index on, strictly ascending. */
    ghost predicate Turning()
      reads this
    {
      && flushing && waiting && scheduled == 0
      && index <= |queue| && Ascending(queue[index..]) && has == Ids(queue[index..])
    }

    /** The start of flushSchedulerQueue: the queue is sorted. */
    method Begin()
      requires Valid() && !flushing && waiting
      modifies this
      ensures Turning() && index == 0 && NoDup(old(queue)) && queue == Sort(old(queue))
      ensures has == old(has) && circular == map[]
    {
      scheduled := scheduled - 1;
      flushing := true;
      queue := Sort(queue);
      index := 0;
      assert queue[0..] == queue;
    }

    /** The next watcher is no longer marked as queued. */
    method Take() returns (id: nat)
      requires Turning() && index < |queue|
      modifies this`has
      ensures Valid() && id == queue[index] && id in old(has) && has == old(has) - {id}
      ensures Above(has, id)
    {
      id := queue[index];
      NextUp(queue, index);
      has := has - {id};
    }

    /** After the run: a watcher that has queued itself is counted, and too many times stop the flush. */
    method Check(id: nat) returns (stop: bool)
      requires Valid() && flushing && id == queue[index]
      modifies this`circular, this`index
      ensures var n := (if id in old(circular) then old(circular)[id] else 0) + 1;
              if id in has then circular == old(circular)[id := n] && (stop <==> n > MAX_UPDATE_COUNT)
              else circular == old(circular) && !stop
      ensures if stop then index == old(index) && Valid() else index == old(index) + 1 && Turning()
    {
      stop := false;
      if id in has {
        var n := (if id in circular then circular[id] else 0) + 1;
        circular := circular[id := n];
        stop := n > MAX_UPDATE_COUNT;
      }
      if !stop {
        index := index + 1;
      }
    }

    /** resetSchedulerState */
    method Reset()
      modifies this`queue, this`has, this`circular, this`waiting, this`flushing
      requires scheduled == 0
      ensures Valid() && !flushing && queue == [] && has == {} && !waiting
    {
      queue, has, circular, waiting, flushing := [], {}, map[], false, false;
      IdsNone([]);
    }

    /**
     flushSchedulerQueue, when nextTick calls it.  Returns the ids run, whether the guard against a watcher that
     keeps queuing itself stopped the flush, and the ids that were then still queued and are dropped.
     */
    method Flush(script: seq<seq<nat>>) returns (ran: seq<nat>, stopped: bool, dropped: set<nat>)
      requires Valid() && !flushing && waiting
      modifies this
      ensures Valid() && !flushing && queue == []
      ensures Ended(Ids(old(queue)), script, ran, stopped, dropped)
    {
      hide Midway, Ended, NoDup, Ascending, Ids, Sort;
      ghost var initial := Ids(queue);
      Begin();
      stopped := false;
      Begun(script, queue);
      while index < |queue| && !stopped
        invariant if stopped then Valid() && flushing else Turning()
        invariant !stopped ==> Midway(initial, script, circular, queue, index, has)
        invariant stopped ==> index < |queue| && Ended(initial, script, queue[..index + 1], true, has)
        decreases !stopped, if index < |script| then |script| - index else 0, |queue| - index
      {
        ghost var (was, pending, counts, at) := (queue, has, circular, index);
        var id := Take();
        RunWatcher(Calls(script, index));
        MidwayStep(initial, script, counts, was, pending, queue, at, has);
        stopped := Check(id);
      }
      ran, dropped := if stopped then queue[..index + 1] else queue, has;
      if !stopped {
        End(initial, script, circular, queue, index, has);
      }
      Reset();
    }
  }

  // ---------- a flush, step by step ----------

  /** Between two runs: what has run, what is to come, and what the guard has counted. */
  ghost predicate Midway(initial: set<nat>, script: seq<seq<nat>>, circular: map<nat, nat>,
                         queue: seq<nat>, index: nat, has: set<nat>) {
    && index <= |queue| && Ascending(queue[index..]) && has == Ids(queue[index..])
    && History(initial, script, queue[..index], has)
    && InOrder(script, queue[..index])
    && (0 < index < |queue| && queue[index] <= queue[index - 1] ==> queue[index] in Ids(Calls(script, index - 1)))
    && Counts(circular, script, queue[..index]) && Bounded(script, queue[..index])
  }

  /** The outcome of a flush. */
  ghost predicate Ended(initial: set<nat>, script: seq<seq<nat>>, ran: seq<nat>, stopped: bool, dropped: set<nat>) {
    && History(initial, script, ran, dropped) && InOrder(script, ran)
    && (stopped <==> exists id :: SelfCalls(script, ran, id) > MAX_UPDATE_COUNT)
    && (stopped ==>
          && ran != [] && SelfCalls(script, ran, ran[|ran| - 1]) == MAX_UPDATE_COUNT + 1
          && ran[|ran| - 1] in dropped)
    && (!stopped ==> dropped == {})
    && (Upward(script, ran) ==> !stopped && Ascending(ran) && Ids(ran) == initial + Requested(script, |ran|))
  }

  lemma Begun(script: seq<seq<nat>>, queue: seq<nat>)
    requires Ascending(queue)
    ensures Midway(Ids(queue), script, map[], queue, 0, Ids(queue))
  {
    assert queue[0..] == queue && queue[..0] == [];
  }

  /** The queue after the run of queue[index], which changed only what comes after it. */
  lemma MidwayStep(initial: set<nat>, script: seq<seq<nat>>, circular: map<nat, nat>,
                   was: seq<nat>, pending: set<nat>, queue: seq<nat>, index: nat, has: set<nat>)
    requires Midway(initial, script, circular, was, index, pending) && index < |was| && index < |queue|
    requires queue[..index + 1] == was[..index + 1] && Ascending(queue[index + 1..]) && has == Ids(queue[index + 1..])
    requires has == pending - {was[index]} + Ids(Calls(script, index))
    ensures var id := queue[index];
            var n := (if id in circular then circular[id] else 0) + 1;
            && id == was[index] && n <= MAX_UPDATE_COUNT + 1
            && (id !in has ==> Midway(initial, script, circular, queue, index + 1, has))
            && (id in has && n <= MAX_UPDATE_COUNT ==>
                  Midway(initial, script, circular[id := n], queue, index + 1, has))
            && (id in has && n > MAX_UPDATE_COUNT ==> Ended(initial, script, queue[..index + 1], true, has))
  {
    hide History, InOrder, Counts, Bounded, Ascending, Ids, Above, SelfCalls, Requested;
    var (id, done) := (was[index], was[..index]);
    assert queue[index] == queue[..index + 1][index] == was[..index + 1][index];
    assert was[..index + 1] == done + [id];
    NextUp(was, index);
    HistoryStep(initial, script, done, pending, id);
    OrderStep(script, done, id);
    NextCall(queue, index, id, Calls(script, index), pending);
    CountStep(circular, script, done, id);
    var n := (if id in circular then circular[id] else 0) + 1;
    if id in has && n > MAX_UPDATE_COUNT {
      LastCount(circular[id := n], script, done + [id], id);
      if Upward(script, done + [id]) {
        UpwardOnce(initial, script, done + [id], has);
        assert false;
      }
    }
  }

  lemma End(initial: set<nat>, script: seq<seq<nat>>, circular: map<nat, nat>, queue: seq<nat>, index: nat,
            has: set<nat>)
    requires Midway(initial, script, circular, queue, index, has) && index == |queue|
    ensures Ended(initial, script, queue, false, has)
  {
    hide History, InOrder, Counts, Ascending, Requested, SelfCalls;
    assert queue[..index] == queue;
    IdsNone(queue[index..]);
    if Upward(script, queue) {
      UpwardOnce(initial, script, queue, has);
    }
  }

  // A flush whose requests become known run by run.

  lemma CallsGrow(script: seq<seq<nat>>, x: seq<nat>)
    ensures forall k: nat :: k < |script| ==> Calls(script + [x], k) == Calls(script, k)
    ensures Calls(script + [x], |script|) == x
  {
  }

  lemma AskedGrow(script: seq<seq<nat>>, x: seq<nat>, from: nat, to: nat, id: nat)
    requires to <= |script|
    ensures Asked(script + [x], from, to, id) == Asked(script, from, to, id)
  {
    CallsGrow(script, x);
  }

  lemma DueGrow(initial: set<nat>, script: seq<seq<nat>>, x: seq<nat>, ran: seq<nat>, m: nat, id: nat)
    requires m <= |ran| <= |script| && Due(initial, script, ran, m, id)
    ensures Due(initial, script + [x], ran, m, id)
  {
    hide Asked;
    AskedGrow(script, x, 0, m, id);
    forall n | 0 <= n < m && ran[n] == id ensures Asked(script + [x], n, m, id) {
      AskedGrow(script, x, n, m, id);
    }
  }

  lemma HistoryGrow(initial: set<nat>, script: seq<seq<nat>>, x: seq<nat>, ran: seq<nat>, pending: set<nat>)
    requires History(initial, script, ran, pending) && |ran| <= |script|
    ensures History(initial, script + [x], ran, pending)
  {
    hide Due;
    CallsGrow(script, x);
    forall k: nat | k < |ran| ensures Answered(script + [x], ran, pending, k) {
      assert Answered(script, ran, pending, k);
    }
    forall m: nat | m < |ran| ensures Due(initial, script + [x], ran, m, ran[m]) {
      DueGrow(initial, script, x, ran, m, ran[m]);
    }
    forall id | id in pending ensures Due(initial, script + [x], ran, |ran|, id) {
      DueGrow(initial, script, x, ran, |ran|, id);
    }
  }

  lemma {:induction false} SelfCallsGrow(script: seq<seq<nat>>, x: seq<nat>, ran: seq<nat>, id: nat)
    requires |ran| <= |script|
    ensures SelfCalls(script + [x], ran, id) == SelfCalls(script, ran, id)
  {
    if ran != [] {
      SelfCallsGrow(script, x, ran[..|ran| - 1], id);
      CallsGrow(script, x);
    }
  }

  /** What the next run will ask for has no bearing on the runs so far. */
  lemma MidwayGrow(initial: set<nat>, script: seq<seq<nat>>, x: seq<nat>, circular: map<nat, nat>,
                   queue: seq<nat>, index: nat, has: set<nat>)
    requires Midway(initial, script, circular, queue, index, has) && index == |script|
    ensures Midway(initial, script + [x], circular, queue, index, has)
  {
    hide History, SelfCalls, Ascending, Ids;
    HistoryGrow(initial, script, x, queue[..index], has);
    CallsGrow(script, x);
    forall id ensures SelfCalls(script + [x], queue[..index], id) == SelfCalls(script, queue[..index], id) {
      SelfCallsGrow(script, x, queue[..index], id);
    }
  }

  /** The same as MidwayStep, when the run's requests are known only now. */
  lemma MidwayNext(initial: set<nat>, script: seq<seq<nat>>, x: seq<nat>, circular: map<nat, nat>,
                   was: seq<nat>, pending: set<nat>, queue: seq<nat>, index: nat, has: set<nat>)
    requires Midway(initial, script, circular, was, index, pending) && index == |script| < |was| && index < |queue|
    requires queue[..index + 1] == was[..index + 1] && Ascending(queue[index + 1..]) && has == Ids(queue[index + 1..])
    requires has == pending - {was[index]} + Ids(x)
    ensures var id := queue[index];
            var n := (if id in circular then circular[id] else 0) + 1;
            && id == was[index] && n <= MAX_UPDATE_COUNT + 1
            && (id !in has ==> Midway(initial, script + [x], circular, queue, index + 1, has))
            && (id in has && n <= MAX_UPDATE_COUNT ==>
                  Midway(initial, script + [x], circular[id := n], queue, index + 1, has))
            && (id in has && n > MAX_UPDATE_COUNT ==> Ended(initial, script + [x], queue[..index + 1], true, has))
  {
    hide Midway, Ended, Ascending, Ids;
    MidwayGrow(initial, script, x, circular, was, index, pending);
    CallsGrow(script, x);
    MidwayStep(initial, script + [x], circular, was, pending, queue, index, has);
  }

  lemma {:induction false} PlaceIs(s: seq<nat>, x: nat, p: nat)
    requires Ascending(s) && p <= |s|
    requires (forall i :: 0 <= i < p ==> s[i] < x) && (forall i :: p <= i < |s| ==> s[i] > x)
    ensures Place(s, x) == p
  {
    if p > 0 {
      assert forall i :: 0 < i < |s| ==> s[i] == s[1..][i - 1];
      PlaceIs(s[1..], x, p - 1);
    }
  }

  /** The loop's position is the one that keeps the rest of the queue ascending. */
  lemma Splice(queue: seq<nat>, index: nat, i: int, at: nat, id: nat)
    requires index < |queue| && Ascending(queue[index + 1..]) && id !in Ids(queue[index + 1..])
    requires -1 <= i < |queue| && at == (if i > index then i else index) + 1
    requires (i >= 0 ==> queue[i] <= id) && forall k :: i < k < |queue| ==> queue[k] > id
    ensures var q := queue[..at] + [id] + queue[at..];
            q[..index + 1] == queue[..index + 1] && q[index + 1..] == Insert(queue[index + 1..], id)
  {
    hide Ids, Ascending, Place;
    var tail := queue[index + 1..];
    var p := at - (index + 1);
    if p > 0 {
      Below(tail, p - 1, id);
    }
    forall k | p <= k < |tail|
      ensures tail[k] > id
    {
      assert tail[k] == queue[index + 1 + k];
    }
    PlaceIs(tail, id, p);
    SpliceTail(queue, index, at, id);
  }

  lemma SpliceTail(queue: seq<nat>, index: nat, at: nat, id: nat)
    requires index < at <= |queue|
    ensures var (q, tail, p) := (queue[..at] + [id] + queue[at..], queue[index + 1..], at - (index + 1));
            q[..index + 1] == queue[..index + 1] && q[index + 1..] == tail[..p] + [id] + tail[p..]
  {
    var (tail, p) := (queue[index + 1..], at - (index + 1));
    assert tail[..p] == queue[index + 1..at] && tail[p..] == queue[at..];
  }

  lemma DistinctAdd(s: seq<nat>, x: nat)
    requires NoDup(s) && x !in Ids(s)
    ensures NoDup(s + [x])
  {
    assert forall i :: 0 <= i < |s| ==> s[i] in Ids(s);
  }

  lemma Below(s: seq<nat>, m: nat, x: nat)
    requires Ascending(s) && x !in Ids(s) && m < |s| && s[m] <= x
    ensures forall k :: 0 <= k <= m ==> s[k] < x
  {
    assert s[m] in Ids(s);
  }
}
