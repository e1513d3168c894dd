/**
 The reactive core of vue_stu/vue.js: dependencies, watchers and lazily cached computed
 properties.  A reactive property is a cell with its Dep; dep c belongs to cell c.  Getters
 are expressions over cells and computed properties, with a conditional, so that what a
 getter depends on changes with the data.  Watchers are numbered so that a getter mentions
 only computed properties with smaller numbers.
 */
module Reactive {
  import opened Basics

  datatype Expr =
    | Lit(n: int)
    | Cell(c: nat)
    | Computed(k: nat)
    | Plus(a: Expr, b: Expr)
    | Cond(test: Expr, yes: Expr, no: Expr)

  datatype Watcher = Watcher(
    getter: Expr, lazy: bool, active: bool, dirty: bool, value: int,
    deps: seq<nat>, depIds: set<nat>, newDeps: seq<nat>, newDepIds: set<nat>)

  /** Cells, the subscriber list of each cell's dep, the watchers, Dep.target and its stack. */
  datatype Graph = Graph(cells: seq<int>, subs: seq<seq<nat>>, ws: seq<Watcher>, target: Option<nat>, stack: seq<nat>)

  // ---------- meaning of getters ----------

  /** The expression mentions only cells that exist and computed properties below k. */
  predicate WellFormed(g: Graph, e: Expr, k: nat) {
    match e
    case Lit(_) => true
    case Cell(c) => c < |g.cells|
    case Computed(j) => j < k && j < |g.ws| && g.ws[j].lazy
    case Plus(a, b) => WellFormed(g, a, k) && WellFormed(g, b, k)
    case Cond(t, y, n) => WellFormed(g, t, k) && WellFormed(g, y, k) && WellFormed(g, n, k)
  }

  ghost predicate GettersOk(g: Graph) {
    forall w: nat :: w < |g.ws| ==> GetterOk(g, w)
  }

  ghost predicate GetterOk(g: Graph, w: nat)
    requires w < |g.ws|
  {
    WellFormed(g, g.ws[w].getter, w)
  }

  /** Evaluating from scratch on the current cells, with no cache. */
  ghost function Eval(g: Graph, e: Expr, k: nat): int
    requires GettersOk(g) && WellFormed(g, e, k)
    decreases k, e
  {
    match e
    case Lit(n) => n
    case Cell(c) => g.cells[c]
    case Computed(j) => assert GetterOk(g, j); Eval(g, g.ws[j].getter, j)
    case Plus(a, b) => Eval(g, a, k) + Eval(g, b, k)
    case Cond(t, y, n) => if Eval(g, t, k) != 0 then Eval(g, y, k) else Eval(g, n, k)
  }

  /** The cells that evaluation looks at, through nested computed properties. */
  ghost function Reads(g: Graph, e: Expr, k: nat): set<nat>
    requires GettersOk(g) && WellFormed(g, e, k)
    decreases k, e
  {
    match e
    case Lit(n) => {}
    case Cell(c) => {c}
    case Computed(j) => assert GetterOk(g, j); Reads(g, g.ws[j].getter, j)
    case Plus(a, b) => Reads(g, a, k) + Reads(g, b, k)
    case Cond(t, y, n) => Reads(g, t, k) + if Eval(g, t, k) != 0 then Reads(g, y, k) else Reads(g, n, k)
  }

  /** No computed property that the expression may look at has been torn down. */
  ghost predicate Alive(g: Graph, e: Expr, k: nat)
    requires GettersOk(g) && WellFormed(g, e, k)
    decreases k, e
  {
    match e
    case Lit(_) => true
    case Cell(_) => true
    case Computed(j) => assert GetterOk(g, j); g.ws[j].active && Alive(g, g.ws[j].getter, j)
    case Plus(a, b) => Alive(g, a, k) && Alive(g, b, k)
    case Cond(t, y, n) => Alive(g, t, k) && Alive(g, y, k) && Alive(g, n, k)
  }

  /** The value with every computed property at its cached value. */
  ghost function Shallow(g: Graph, e: Expr, k: nat): int
    requires WellFormed(g, e, k)
  {
    match e
    case Lit(n) => n
    case Cell(c) => g.cells[c]
    case Computed(j) => g.ws[j].value
    case Plus(a, b) => Shallow(g, a, k) + Shallow(g, b, k)
    case Cond(t, y, n) => if Shallow(g, t, k) != 0 then Shallow(g, y, k) else Shallow(g, n, k)
  }

  /** The computed properties that take part in it. */
  ghost function Passed(g: Graph, e: Expr, k: nat): (r: set<nat>)
    requires WellFormed(g, e, k)
    ensures forall j <- r :: j < k && j < |g.ws| && g.ws[j].lazy
  {
    match e
    case Lit(_) => {}
    case Cell(_) => {}
    case Computed(j) => {j}
    case Plus(a, b) => Passed(g, a, k) + Passed(g, b, k)
    case Cond(t, y, n) => Passed(g, t, k) + if Shallow(g, t, k) != 0 then Passed(g, y, k) else Passed(g, n, k)
  }

  /** The cells that take part in it and the dependencies of the computed properties that do. */
  ghost function Direct(g: Graph, e: Expr, k: nat): (r: set<nat>)
    requires WellFormed(g, e, k)
    ensures forall j <- Passed(g, e, k) :: g.ws[j].depIds <= r
  {
    match e
    case Lit(_) => {}
    case Cell(c) => {c}
    case Computed(j) => g.ws[j].depIds
    case Plus(a, b) => Direct(g, a, k) + Direct(g, b, k)
    case Cond(t, y, n) => Direct(g, t, k) + if Shallow(g, t, k) != 0 then Direct(g, y, k) else Direct(g, n, k)
  }

  /** Those computed properties are clean. */
  ghost predicate Clear(g: Graph, e: Expr, k: nat)
    requires WellFormed(g, e, k)
  {
    forall j <- Passed(g, e, k) :: !g.ws[j].dirty
  }

  /** Torn down, and clean: a read returns the cached value. */
  predicate Kept(g: Graph, j: nat)
    requires j < |g.ws|
  {
    !g.ws[j].active && !g.ws[j].dirty
  }

  /** Evaluating on the current cells, with the computed properties that are kept at their cached values. */
  ghost function Recall(g: Graph, e: Expr, k: nat): int
    requires GettersOk(g) && WellFormed(g, e, k)
    decreases k, e
  {
    match e
    case Lit(n) => n
    case Cell(c) => g.cells[c]
    case Computed(j) => assert GetterOk(g, j); if Kept(g, j) then g.ws[j].value else Recall(g, g.ws[j].getter, j)
    case Plus(a, b) => Recall(g, a, k) + Recall(g, b, k)
    case Cond(t, y, n) => if Recall(g, t, k) != 0 then Recall(g, y, k) else Recall(g, n, k)
  }

  /** Where nothing has been torn down, that is evaluating from scratch. */
  lemma {:induction false} AliveRecall(g: Graph, e: Expr, k: nat)
    requires GettersOk(g) && WellFormed(g, e, k) && Alive(g, e, k)
    ensures Recall(g, e, k) == Eval(g, e, k)
    decreases k, e
  {
    match e
    case Lit(_) =>
    case Cell(_) =>
    case Computed(j) =>
      assert GetterOk(g, j);
      AliveRecall(g, g.ws[j].getter, j);
    case Plus(a, b) =>
      AliveRecall(g, a, k);
      AliveRecall(g, b, k);
    case Cond(t, y, n) =>
      AliveRecall(g, t, k);
      AliveRecall(g, y, k);
      AliveRecall(g, n, k);
  }

  /** Two graphs with the same getters. */
  ghost predicate SameCode(g: Graph, h: Graph) {
    && |g.cells| == |h.cells| && |g.ws| == |h.ws|
    && forall w: nat :: w < |g.ws| ==> CodeAt(g, h, w)
  }

  ghost predicate CodeAt(g: Graph, h: Graph, w: nat)
    requires w < |g.ws| == |h.ws|
  {
    g.ws[w].getter == h.ws[w].getter && g.ws[w].lazy == h.ws[w].lazy
  }

  ghost predicate ActiveAt(g: Graph, h: Graph, w: nat)
    requires w < |g.ws| == |h.ws|
  {
    g.ws[w].active == h.ws[w].active
  }

  /** Two graphs with the same getters, and the same watchers torn down. */
  ghost predicate SameProgram(g: Graph, h: Graph) {
    SameCode(g, h) && forall w: nat :: w < |g.ws| ==> ActiveAt(g, h, w)
  }

  ghost predicate SameWatcher(g: Graph, h: Graph, w: nat)
    requires w < |g.ws| == |h.ws|
  {
    CodeAt(g, h, w) && ActiveAt(g, h, w)
  }

  lemma {:induction false} SameWellFormed(g: Graph, h: Graph, e: Expr, k: nat)
    requires SameCode(g, h)
    ensures WellFormed(g, e, k) == WellFormed(h, e, k)
  {
    match e
    case Lit(_) =>
    case Cell(_) =>
    case Computed(j) => if j < |g.ws| { assert CodeAt(g, h, j); }
    case Plus(a, b) => SameWellFormed(g, h, a, k); SameWellFormed(g, h, b, k);
    case Cond(t, y, n) => SameWellFormed(g, h, t, k); SameWellFormed(g, h, y, k); SameWellFormed(g, h, n, k);
  }

  lemma SameGetters(g: Graph, h: Graph)
    requires SameCode(g, h) && GettersOk(g)
    ensures GettersOk(h)
  {
    forall w: nat | w < |h.ws| ensures GetterOk(h, w) {
      assert GetterOk(g, w) && CodeAt(g, h, w);
      SameWellFormed(g, h, g.ws[w].getter, w);
    }
  }

  /** Evaluation depends on the cells it reads and on nothing else. */
  lemma {:induction false} Agree(g: Graph, h: Graph, e: Expr, k: nat)
    requires SameCode(g, h) && GettersOk(g) && GettersOk(h) && WellFormed(g, e, k) && WellFormed(h, e, k)
    requires forall c :: c in Reads(g, e, k) && c < |g.cells| ==> g.cells[c] == h.cells[c]
    ensures Eval(h, e, k) == Eval(g, e, k) && Reads(h, e, k) == Reads(g, e, k)
    decreases k, e
  {
    match e
    case Lit(_) =>
    case Cell(_) =>
    case Computed(j) =>
      assert GetterOk(g, j) && GetterOk(h, j) && CodeAt(g, h, j);
      Agree(g, h, g.ws[j].getter, j);
    case Plus(a, b) =>
      Agree(g, h, a, k);
      Agree(g, h, b, k);
    case Cond(t, y, n) =>
      Agree(g, h, t, k);
      if Eval(g, t, k) != 0 {
        Agree(g, h, y, k);
      } else {
        Agree(g, h, n, k);
      }
  }

  /** Tearing watchers down can only take life away. */
  lemma {:induction false} AliveBefore(g: Graph, h: Graph, e: Expr, k: nat)
    requires SameCode(g, h) && GettersOk(g) && GettersOk(h) && WellFormed(g, e, k) && WellFormed(h, e, k)
    requires forall w :: 0 <= w < |g.ws| && h.ws[w].active ==> g.ws[w].active
    ensures Alive(h, e, k) ==> Alive(g, e, k)
    decreases k, e
  {
    match e
    case Lit(_) =>
    case Cell(_) =>
    case Computed(j) =>
      assert GetterOk(g, j) && GetterOk(h, j) && CodeAt(g, h, j);
      AliveBefore(g, h, g.ws[j].getter, j);
    case Plus(a, b) =>
      AliveBefore(g, h, a, k);
      AliveBefore(g, h, b, k);
    case Cond(t, y, n) =>
      AliveBefore(g, h, t, k);
      AliveBefore(g, h, y, k);
      AliveBefore(g, h, n, k);
  }

  lemma SameAlive(g: Graph, h: Graph, e: Expr, k: nat)
    requires SameProgram(g, h) && GettersOk(g) && GettersOk(h) && WellFormed(g, e, k) && WellFormed(h, e, k)
    ensures Alive(g, e, k) == Alive(h, e, k)
  {
    hide GettersOk;
    forall w: nat | w < |g.ws| ensures CodeAt(h, g, w) && g.ws[w].active == h.ws[w].active {
      assert SameWatcher(g, h, w);
    }
    AliveBefore(g, h, e, k);
    AliveBefore(h, g, e, k);
  }

  lemma {:induction false} ReadsExist(g: Graph, e: Expr, k: nat)
    requires GettersOk(g) && WellFormed(g, e, k)
    ensures forall c <- Reads(g, e, k) :: c < |g.cells|
    decreases k, e
  {
    match e
    case Lit(_) =>
    case Cell(_) =>
    case Computed(j) =>
      assert GetterOk(g, j);
      ReadsExist(g, g.ws[j].getter, j);
    case Plus(a, b) =>
      ReadsExist(g, a, k);
      ReadsExist(g, b, k);
    case Cond(t, y, n) =>
      ReadsExist(g, t, k);
      ReadsExist(g, y, k);
      ReadsExist(g, n, k);
  }

  // ---------- the invariant ----------

  ghost function Elements(s: seq<nat>): set<nat> {
    set x <- s
  }

  /** A watcher's dependency lists and id sets agree. */
  ghost predicate DepsOk(x: Watcher, n: nat) {
    && NoDup(x.deps) && Elements(x.deps) == x.depIds && (forall c <- x.depIds :: c < n)
    && NoDup(x.newDeps) && Elements(x.newDeps) == x.newDepIds && (forall c <- x.newDepIds :: c < n)
  }

  ghost predicate SubsExist(g: Graph, c: nat)
    requires c < |g.subs|
  {
    forall w <- g.subs[c] :: w < |g.ws|
  }

  /**
   The watcher subscribes to dep c once if c is among its dependencies, old or newly collected, and otherwise not; one
   that is torn down may subscribe to fewer.
   */
  ghost predicate SubOnce(g: Graph, w: nat, c: nat)
    requires w < |g.ws| && c < |g.subs|
  {
    OnceIf(multiset(g.subs[c])[w], g.ws[w].active, c in g.ws[w].depIds || c in g.ws[w].newDepIds)
  }

  predicate OnceIf(n: nat, active: bool, listed: bool) {
    n <= (if listed then 1 else 0) && (active && listed ==> n == 1)
  }

  ghost predicate LinkOk(g: Graph, w: nat)
    requires w < |g.ws|
  {
    DepsOk(g.ws[w], |g.subs|) && forall c: nat :: c < |g.subs| ==> SubOnce(g, w, c)
  }

  /** v is what the watcher's getter gives on clean caches, and the watcher depends on all that took part. */
  ghost predicate Ready(g: Graph, w: nat, v: int)
    requires GettersOk(g) && w < |g.ws|
  {
    assert GetterOk(g, w);
    var e := g.ws[w].getter;
    Clear(g, e, w) && v == Shallow(g, e, w) && Direct(g, e, w) <= g.ws[w].depIds
  }

  ghost predicate FreshAt(g: Graph, w: nat)
    requires GettersOk(g) && w < |g.ws|
  {
    Ready(g, w, g.ws[w].value)
  }

  /** A clean computed property holds its getter's value and depends on everything the value was computed from. */
  ghost predicate CacheOk(g: Graph, w: nat)
    requires GettersOk(g) && w < |g.ws|
  {
    g.ws[w].lazy && g.ws[w].active && !g.ws[w].dirty ==> FreshAt(g, w)
  }

  ghost predicate Running(g: Graph, w: nat) {
    g.target == Some(w) || w in g.stack
  }

  /** A watcher that is not being evaluated has nothing half-collected. */
  ghost predicate RestOk(g: Graph, w: nat)
    requires w < |g.ws|
  {
    Running(g, w) || (g.ws[w].newDeps == [] && g.ws[w].newDepIds == {})
  }

  ghost predicate Inv(g: Graph) {
    && |g.subs| == |g.cells| && GettersOk(g)
    && (g.target.None? ==> g.stack == [])
    && (forall w: nat :: Running(g, w) ==> w < |g.ws|)
    && (forall c: nat :: c < |g.subs| ==> SubsExist(g, c))
    && forall w: nat :: w < |g.ws| ==> LinkOk(g, w) && CacheOk(g, w) && RestOk(g, w)
  }

  // ---------- small facts ----------

  lemma ElementsAppend(s: seq<nat>, x: nat)
    ensures Elements(s + [x]) == Elements(s) + {x}
    ensures NoDup(s) && x !in s ==> NoDup(s + [x])
  {
    assert forall y :: y in s + [x] <==> y in s || y == x;
  }

  /** remove: the first occurrence goes. */
  function Remove(s: seq<nat>, x: nat): (r: seq<nat>)
    ensures multiset(r) == multiset(s) - multiset{x}
  {
    if s == [] then []
    else if s[0] == x then
      assert s == [s[0]] + s[1..];
      s[1..]
    else
      assert s == [s[0]] + s[1..];
      [s[0]] + Remove(s[1..], x)
  }

  /** The parts of a watcher that its cached value rests on. */
  ghost predicate SameCache(g: Graph, h: Graph, w: nat)
    requires w < |g.ws| == |h.ws|
  {
    g.ws[w].dirty == h.ws[w].dirty && g.ws[w].value == h.ws[w].value && g.ws[w].depIds == h.ws[w].depIds
  }

  /** Every clean computed property has its cache as it was. */
  ghost predicate KeepsClean(g: Graph, h: Graph) {
    |g.ws| <= |h.ws| && forall j: nat :: j < |g.ws| && g.ws[j].lazy && !g.ws[j].dirty ==> SameCacheAt(g, h, j)
  }

  ghost predicate SameCacheAt(g: Graph, h: Graph, w: nat)
    requires w < |g.ws| <= |h.ws|
  {
    g.ws[w].dirty == h.ws[w].dirty && g.ws[w].value == h.ws[w].value && g.ws[w].depIds == h.ws[w].depIds
  }

  /** What a value on the caches rests on. */
  lemma {:induction false} ShallowFrame(g: Graph, h: Graph, e: Expr, k: nat)
    requires WellFormed(g, e, k) && WellFormed(h, e, k) && |g.ws| <= |h.ws|
    requires forall j <- Passed(g, e, k) :: SameCacheAt(g, h, j)
    requires forall c <- Direct(g, e, k) :: c < |g.cells| && c < |h.cells| ==> h.cells[c] == g.cells[c]
    ensures Shallow(h, e, k) == Shallow(g, e, k) && Passed(h, e, k) == Passed(g, e, k)
    ensures Direct(h, e, k) == Direct(g, e, k) && Clear(h, e, k) == Clear(g, e, k)
  {
    match e
    case Lit(_) =>
    case Cell(_) =>
    case Computed(j) => assert j in Passed(g, e, k);
    case Plus(a, b) =>
      ShallowFrame(g, h, a, k);
      ShallowFrame(g, h, b, k);
    case Cond(t, y, n) =>
      ShallowFrame(g, h, t, k);
      if Shallow(g, t, k) != 0 {
        ShallowFrame(g, h, y, k);
      } else {
        ShallowFrame(g, h, n, k);
      }
  }

  lemma CleanFrame(g: Graph, h: Graph, e: Expr, k: nat)
    requires WellFormed(g, e, k) && WellFormed(h, e, k) && KeepsClean(g, h) && h.cells == g.cells && Clear(g, e, k)
    ensures Shallow(h, e, k) == Shallow(g, e, k) && Direct(h, e, k) == Direct(g, e, k) && Clear(h, e, k)
  {
    ShallowFrame(g, h, e, k);
  }

  /** A watcher stays up to date while the clean caches and the cells are as they were. */
  lemma FreshFrame(g: Graph, h: Graph, w: nat)
    requires GettersOk(g) && GettersOk(h) && w < |g.ws| <= |h.ws| && FreshAt(g, w) && KeepsClean(g, h)
    requires h.cells == g.cells && h.ws[w].getter == g.ws[w].getter
    requires h.ws[w].value == g.ws[w].value && h.ws[w].depIds == g.ws[w].depIds
    ensures FreshAt(h, w)
  {
    assert GetterOk(g, w) && GetterOk(h, w);
    CleanFrame(g, h, g.ws[w].getter, w);
  }

  lemma CacheFrame(g: Graph, h: Graph, w: nat)
    requires SameProgram(g, h) && GettersOk(g) && GettersOk(h) && g.cells == h.cells && w < |g.ws|
    requires CacheOk(g, w) && SameCache(g, h, w) && KeepsClean(g, h)
    ensures CacheOk(h, w)
  {
    assert SameWatcher(g, h, w);
    hide GettersOk, FreshAt, KeepsClean;
    if g.ws[w].lazy && g.ws[w].active && !g.ws[w].dirty {
      FreshFrame(g, h, w);
    }
  }

  // ---------- what the caches mean ----------

  ghost predicate CachesOk(g: Graph) {
    GettersOk(g) && forall w: nat :: w < |g.ws| ==> CacheOk(g, w)
  }

  /** A value on clean caches is the one with the kept properties held. */
  lemma {:induction false} ClearRecall(g: Graph, e: Expr, k: nat)
    requires CachesOk(g) && WellFormed(g, e, k) && Clear(g, e, k)
    ensures Shallow(g, e, k) == Recall(g, e, k)
    decreases k, e
  {
    match e
    case Lit(_) =>
    case Cell(_) =>
    case Computed(j) =>
      assert GetterOk(g, j) && CacheOk(g, j);
      if g.ws[j].active {
        ClearRecall(g, g.ws[j].getter, j);
      }
    case Plus(a, b) =>
      ClearRecall(g, a, k);
      ClearRecall(g, b, k);
    case Cond(t, y, n) =>
      ClearRecall(g, t, k);
      if Shallow(g, t, k) != 0 {
        ClearRecall(g, y, k);
      } else {
        ClearRecall(g, n, k);
      }
  }

  /** Where nothing has been torn down, whoever is up to date depends on every cell its value is computed from. */
  lemma {:induction false} ClearReads(g: Graph, e: Expr, k: nat)
    requires CachesOk(g) && WellFormed(g, e, k) && Clear(g, e, k) && Alive(g, e, k)
    ensures Reads(g, e, k) <= Direct(g, e, k)
    decreases k, e
  {
    match e
    case Lit(_) =>
    case Cell(_) =>
    case Computed(j) =>
      assert GetterOk(g, j) && CacheOk(g, j);
      ClearReads(g, g.ws[j].getter, j);
    case Plus(a, b) =>
      ClearReads(g, a, k);
      ClearReads(g, b, k);
    case Cond(t, y, n) =>
      ClearReads(g, t, k);
      ClearRecall(g, t, k);
      AliveRecall(g, t, k);
      if Shallow(g, t, k) != 0 {
        ClearReads(g, y, k);
      } else {
        ClearReads(g, n, k);
      }
  }

  /** A watcher that is up to date has the value its getter means. */
  lemma FreshMeans(g: Graph, w: nat)
    requires CachesOk(g) && w < |g.ws| && FreshAt(g, w)
    ensures GetterOk(g, w) && g.ws[w].value == Recall(g, g.ws[w].getter, w)
    ensures Alive(g, g.ws[w].getter, w) ==>
              g.ws[w].value == Eval(g, g.ws[w].getter, w) && Reads(g, g.ws[w].getter, w) <= g.ws[w].depIds
  {
    assert GetterOk(g, w);
    var e := g.ws[w].getter;
    ClearRecall(g, e, w);
    if Alive(g, e, w) {
      AliveRecall(g, e, w);
      ClearReads(g, e, w);
    }
  }

  /** Evaluations have cleaned some computed properties, each with the value it meant before. */
  ghost predicate Fixes(g: Graph, h: Graph) {
    GettersOk(g) && |h.ws| == |g.ws| && forall j: nat :: j < |g.ws| && g.ws[j].lazy ==> FixedAt(g, h, j)
  }

  ghost predicate FixedAt(g: Graph, h: Graph, j: nat)
    requires GettersOk(g) && j < |g.ws| == |h.ws|
  {
    assert GetterOk(g, j);
    if !g.ws[j].dirty then SameCacheAt(g, h, j)
    else !h.ws[j].dirty ==> h.ws[j].value == Recall(g, g.ws[j].getter, j)
  }

  lemma FixesClean(g: Graph, h: Graph)
    requires Fixes(g, h)
    ensures KeepsClean(g, h)
  {
    forall j: nat | j < |g.ws| && g.ws[j].lazy && !g.ws[j].dirty ensures SameCacheAt(g, h, j) {
      assert FixedAt(g, h, j);
    }
  }

  lemma FixesSame(g: Graph, h: Graph)
    requires GettersOk(g) && |h.ws| == |g.ws| && forall j: nat :: j < |g.ws| ==> SameCache(g, h, j)
    ensures Fixes(g, h)
  {
    forall j: nat | j < |g.ws| && g.ws[j].lazy ensures FixedAt(g, h, j) {
      assert SameCache(g, h, j);
    }
  }

  /** No evaluation changes what an expression means. */
  lemma {:induction false} RecallSame(g: Graph, h: Graph, e: Expr, k: nat)
    requires SameProgram(g, h) && h.cells == g.cells && GettersOk(g) && GettersOk(h) && Fixes(g, h)
    requires WellFormed(g, e, k) && WellFormed(h, e, k)
    ensures Recall(h, e, k) == Recall(g, e, k)
    decreases k, e
  {
    match e
    case Lit(_) =>
    case Cell(_) =>
    case Computed(j) =>
      assert GetterOk(g, j) && GetterOk(h, j) && SameWatcher(g, h, j) && FixedAt(g, h, j);
      RecallSame(g, h, g.ws[j].getter, j);
    case Plus(a, b) =>
      RecallSame(g, h, a, k);
      RecallSame(g, h, b, k);
    case Cond(t, y, n) =>
      RecallSame(g, h, t, k);
      RecallSame(g, h, y, k);
      RecallSame(g, h, n, k);
  }

  lemma FixesTrans(g: Graph, h: Graph, i: Graph)
    requires Fixes(g, h) && Fixes(h, i) && SameProgram(g, h) && h.cells == g.cells
    ensures Fixes(g, i)
  {
    forall j: nat | j < |g.ws| && g.ws[j].lazy ensures FixedAt(g, i, j) {
      assert GetterOk(g, j) && GetterOk(h, j) && SameWatcher(g, h, j) && FixedAt(g, h, j) && FixedAt(h, i, j);
      RecallSame(g, h, g.ws[j].getter, j);
    }
  }

  lemma LinkFrame(g: Graph, h: Graph, w: nat)
    requires w < |g.ws| == |h.ws| && |g.subs| == |h.subs| && LinkOk(g, w) && g.ws[w] == h.ws[w]
    requires forall c: nat :: c < |g.subs| ==> multiset(g.subs[c])[w] == multiset(h.subs[c])[w]
    ensures LinkOk(h, w)
  {
    forall c: nat | c < |g.subs| ensures SubOnce(h, w, c) {
      assert SubOnce(g, w, c);
    }
  }

  // ---------- collecting a dependency ----------

  /** addDep. */
  function AddDepTo(g: Graph, w: nat, c: nat): Graph
    requires w < |g.ws| && c < |g.subs|
  {
    var x := g.ws[w];
    if c in x.newDepIds then g else
    var g' := g.(ws := g.ws[w := x.(newDepIds := x.newDepIds + {c}, newDeps := x.newDeps + [c])]);
    if c in x.depIds then g' else g'.(subs := g.subs[c := g.subs[c] + [w]])
  }

  /** What evaluation may change in a watcher from k on: only the target's collection grows. */
  ghost predicate Held(g: Graph, h: Graph, w: nat)
    requires w < |g.ws| == |h.ws|
  {
    if g.target == Some(w) then
      && h.ws[w] == g.ws[w].(newDeps := h.ws[w].newDeps, newDepIds := h.ws[w].newDepIds)
      && g.ws[w].newDepIds <= h.ws[w].newDepIds
    else h.ws[w] == g.ws[w]
  }

  ghost predicate Evolved(g: Graph, h: Graph, k: nat) {
    && SameProgram(g, h) && h.cells == g.cells && |h.subs| == |g.subs|
    && h.target == g.target && h.stack == g.stack
    && forall w: nat :: k <= w < |g.ws| ==> Held(g, h, w)
  }

  lemma EvolvedTrans(g: Graph, h: Graph, i: Graph, k: nat)
    requires Evolved(g, h, k) && Evolved(h, i, k)
    ensures Evolved(g, i, k)
  {
    forall w: nat | w < |g.ws| ensures CodeAt(g, i, w) && ActiveAt(g, i, w) {
      assert SameWatcher(g, h, w) && SameWatcher(h, i, w);
    }
    forall w: nat | k <= w < |g.ws| ensures Held(g, i, w) {
      assert Held(g, h, w) && Held(h, i, w);
    }
  }

  lemma EvolvedWiden(g: Graph, h: Graph, j: nat, k: nat)
    requires Evolved(g, h, j) && j <= k
    ensures Evolved(g, h, k)
  {
  }

  lemma AddDepKeeps(g: Graph, w: nat, c: nat)
    requires Inv(g) && w < |g.ws| && c < |g.subs| && g.target == Some(w)
    ensures Inv(AddDepTo(g, w, c)) && Evolved(g, AddDepTo(g, w, c), 0)
    ensures AddDepTo(g, w, c).ws[w].newDepIds == g.ws[w].newDepIds + {c}
  {
    hide GettersOk, SameProgram, CacheOk, LinkOk, RestOk;
    var h := AddDepTo(g, w, c);
    AddDepProgram(g, w, c);
    SameKeeps(g, h);
    hide KeepsClean;
    forall v: nat | v < |g.ws| ensures LinkOk(h, v) && CacheOk(h, v) && RestOk(h, v) {
      assert LinkOk(g, v) && CacheOk(g, v) && RestOk(g, v);
      CacheFrame(g, h, v);
      AddDepLink(g, w, c, v);
      AddDepRest(g, w, c, v);
    }
    forall v: nat | Running(h, v) ensures v < |h.ws| {
      assert Running(g, v);
    }
    forall d: nat | d < |h.subs| ensures SubsExist(h, d) {
      assert SubsExist(g, d);
    }
  }

  lemma CleanSelf(g: Graph)
    ensures KeepsClean(g, g)
  {
  }

  lemma SameKeeps(g: Graph, h: Graph)
    requires |h.ws| == |g.ws| && forall v: nat :: v < |g.ws| ==> SameCache(g, h, v)
    ensures KeepsClean(g, h)
  {
    forall j: nat | j < |g.ws| ensures SameCacheAt(g, h, j) {
      assert SameCache(g, h, j);
    }
  }

  // ---------- what an evaluation does not touch ----------

  /** The watcher is not being evaluated, and a read would not evaluate it. */
  ghost predicate Resting(g: Graph, v: nat) {
    v < |g.ws| && !Running(g, v) && (!g.ws[v].lazy || !g.ws[v].dirty)
  }

  ghost predicate StillAt(g: Graph, h: Graph, v: nat)
    requires v < |g.ws| == |h.ws| && |g.subs| == |h.subs|
  {
    Resting(h, v) && h.ws[v] == g.ws[v] && forall c: nat :: c < |g.subs| ==>
        multiset(h.subs[c])[v] == multiset(g.subs[c])[v]
  }

  /** Watchers at rest, but for w, are as they were, with the same subscriptions. */
  ghost predicate UntouchedBut(g: Graph, h: Graph, w: Option<nat>) {
    && |h.ws| == |g.ws| && |h.subs| == |g.subs|
    && forall v: nat :: Resting(g, v) && w != Some(v) ==> StillAt(g, h, v)
  }

  ghost predicate Untouched(g: Graph, h: Graph) {
    UntouchedBut(g, h, None)
  }

  lemma UntouchedTrans(g: Graph, h: Graph, i: Graph, w: Option<nat>)
    requires UntouchedBut(g, h, w) && UntouchedBut(h, i, w)
    ensures UntouchedBut(g, i, w)
  {
    forall v: nat | Resting(g, v) && w != Some(v) ensures StillAt(g, i, v) {
      assert StillAt(g, h, v) && StillAt(h, i, v);
    }
  }

  lemma UntouchedRefl(g: Graph)
    ensures Untouched(g, g)
  {
    forall v: nat | Resting(g, v) ensures StillAt(g, g, v) {
    }
  }

  lemma UntouchedAddDep(g: Graph, w: nat, c: nat)
    requires w < |g.ws| && c < |g.subs| && g.target == Some(w)
    ensures Untouched(g, AddDepTo(g, w, c))
  {
    var h := AddDepTo(g, w, c);
    forall v: nat | Resting(g, v) ensures StillAt(g, h, v) {
      assert Running(g, w);
    }
  }

  /** An evaluation from push to pop and clean-up touches only its own watcher. */
  lemma UntouchedGet(g: Graph, g1: Graph, g2: Graph, g3: Graph, h: Graph, w: nat)
    requires w < |g.ws| && g1 == Push(g, w) && Untouched(g1, g2)
    requires g3 == g2.(target := g.target, stack := g.stack) && w < |g3.ws| == |h.ws|
    requires Cleaned(g3, h.(ws := g3.ws), w, 0) && h.ws == g3.ws[w := Swapped(g3.ws[w])]
    ensures UntouchedBut(g, h, Some(w))
  {
    hide Swapped, CleanedAt;
    var i := h.(ws := g3.ws);
    forall v: nat | Resting(g, v) && v != w ensures StillAt(g, h, v) {
      assert Resting(g1, v);
      assert StillAt(g1, g2, v);
      forall c: nat | c < |g.subs| ensures multiset(h.subs[c])[v] == multiset(g.subs[c])[v] {
        assert multiset(i.subs[c])[v] == multiset(g3.subs[c])[v];
      }
    }
  }

  lemma UntouchedValue(g: Graph, h: Graph, w: nat, x: Watcher)
    requires w < |g.ws| && UntouchedBut(g, h, Some(w)) && !Resting(g, w)
    ensures Untouched(g, h.(ws := h.ws[w := x]))
  {
    forall v: nat | Resting(g, v) ensures StillAt(g, h.(ws := h.ws[w := x]), v) {
      assert StillAt(g, h, v);
    }
  }

  lemma UntouchedDown(g: Graph, h: Graph, w: nat)
    requires w < |g.ws| && Cleaned(g, h, w, 0)
    ensures UntouchedBut(g, h.(ws := h.ws[w := h.ws[w].(active := false)]), Some(w))
  {
    var i := h.(ws := h.ws[w := h.ws[w].(active := false)]);
    forall v: nat | Resting(g, v) && v != w ensures StillAt(g, i, v) {
      forall c: nat | c < |g.subs| ensures multiset(i.subs[c])[v] == multiset(g.subs[c])[v] {
        assert multiset(h.subs[c])[v] == multiset(g.subs[c])[v];
      }
    }
  }

  lemma UntouchedMore(g: Graph, h: Graph, w: nat)
    requires Untouched(g, h)
    ensures UntouchedBut(g, h, Some(w))
  {
  }

  lemma UntouchedOwn(g: Graph, h: Graph, w: nat, x: Watcher)
    requires w < |g.ws| && UntouchedBut(g, h, Some(w))
    ensures UntouchedBut(g, h.(ws := h.ws[w := x]), Some(w))
  {
    forall v: nat | Resting(g, v) && v != w ensures StillAt(g, h.(ws := h.ws[w := x]), v) {
      assert StillAt(g, h, v);
    }
  }

  lemma AddDepProgram(g: Graph, w: nat, c: nat)
    requires GettersOk(g) && w < |g.ws| && c < |g.subs|
    ensures SameProgram(g, AddDepTo(g, w, c)) && GettersOk(AddDepTo(g, w, c))
    ensures forall v: nat :: v < |g.ws| ==> SameCache(g, AddDepTo(g, w, c), v)
  {
    var h := AddDepTo(g, w, c);
    hide GettersOk;
    forall v: nat | v < |g.ws| ensures CodeAt(g, h, v) && ActiveAt(g, h, v) {
    }
    SameGetters(g, h);
  }

  lemma AddDepLink(g: Graph, w: nat, c: nat, v: nat)
    requires w < |g.ws| && c < |g.subs| && v < |g.ws| && LinkOk(g, v)
    ensures LinkOk(AddDepTo(g, w, c), v)
  {
    var h := AddDepTo(g, w, c);
    if v != w {
      LinkFrame(g, h, v);
    } else if c !in g.ws[w].newDepIds {
      AddDepDeps(g.ws[w], |g.subs|, c);
      hide DepsOk;
      forall d: nat | d < |g.subs| ensures SubOnce(h, w, d) {
        assert SubOnce(g, w, d);
      }
    }
  }

  lemma AddDepDeps(x: Watcher, n: nat, c: nat)
    requires DepsOk(x, n) && c < n && c !in x.newDepIds
    ensures DepsOk(x.(newDepIds := x.newDepIds + {c}, newDeps := x.newDeps + [c]), n)
  {
    ElementsAppend(x.newDeps, c);
  }

  lemma AddDepRest(g: Graph, w: nat, c: nat, v: nat)
    requires w < |g.ws| && c < |g.subs| && v < |g.ws| && RestOk(g, v) && g.target == Some(w)
    ensures RestOk(AddDepTo(g, w, c), v)
  {
  }

  // ---------- the target stack ----------

  /** pushTarget. */
  function Push(g: Graph, w: nat): Graph {
    g.(stack := if g.target.Some? then g.stack + [g.target.value] else g.stack, target := Some(w))
  }

  /** popTarget. */
  function Pop(g: Graph): Graph {
    if g.stack == [] then g.(target := None)
    else g.(target := Some(g.stack[|g.stack| - 1]), stack := g.stack[..|g.stack| - 1])
  }

  /** Only watchers from k on are being evaluated. */
  ghost predicate RunningFrom(g: Graph, k: nat) {
    forall w: nat :: Running(g, w) ==> w >= k
  }

  lemma PushPop(g: Graph, w: nat, h: Graph)
    requires (g.target.None? ==> g.stack == []) && h.target == Push(g, w).target && h.stack == Push(g, w).stack
    ensures Pop(h).target == g.target && Pop(h).stack == g.stack
    ensures forall v: nat :: Running(Push(g, w), v) <==> Running(g, v) || v == w
  {
    forall v: nat ensures Running(Push(g, w), v) <==> Running(g, v) || v == w {
      assert g.target.Some? ==> forall x :: x in g.stack + [g.target.value] <==> x in g.stack || x == g.target.value;
    }
  }

  lemma Reframe(g: Graph, h: Graph)
    requires Inv(g) && h.cells == g.cells && h.subs == g.subs && h.ws == g.ws
    ensures SameProgram(g, h) && GettersOk(h)
    ensures forall w: nat :: w < |g.ws| ==> LinkOk(h, w) && CacheOk(h, w)
    ensures forall c: nat :: c < |h.subs| ==> SubsExist(h, c)
  {
    forall c: nat | c < |h.subs| ensures SubsExist(h, c) {
      assert SubsExist(g, c);
    }
    forall w: nat | w < |g.ws| ensures CodeAt(g, h, w) && ActiveAt(g, h, w) {
    }
    SameGetters(g, h);
    SameKeeps(g, h);
    hide GettersOk, CacheOk, SameProgram, KeepsClean;
    forall w: nat | w < |g.ws| ensures LinkOk(h, w) && CacheOk(h, w) {
      assert LinkOk(g, w) && CacheOk(g, w);
      LinkFrame(g, h, w);
      CacheFrame(g, h, w);
    }
  }

  lemma PushKeeps(g: Graph, w: nat)
    requires Inv(g) && w < |g.ws|
    ensures Inv(Push(g, w))
  {
    hide GettersOk, CacheOk, LinkOk;
    var h := Push(g, w);
    Reframe(g, h);
    PushPop(g, w, h);
    forall v: nat | v < |g.ws| ensures RestOk(h, v) {
      assert RestOk(g, v);
    }
  }

  // ---------- dropping the dependencies not collected again ----------

  /** The two sets of dependencies change places, and the new ones are emptied. */
  function Swapped(x: Watcher): Watcher {
    x.(depIds := x.newDepIds, deps := x.newDeps, newDepIds := {}, newDeps := [])
  }

  /**
   Position i of the loop of cleanupDeps: the dependencies from i on that were not collected again are unsubscribed.
   */
  ghost predicate Cleaned(g: Graph, h: Graph, w: nat, i: nat)
    requires w < |g.ws|
  {
    && h == g.(subs := h.subs) && |h.subs| == |g.subs|
    && (forall c: nat, v: nat :: c < |g.subs| && v != w ==> multiset(h.subs[c])[v] == multiset(g.subs[c])[v])
    && (forall c: nat :: c < |g.subs| ==> multiset(h.subs[c]) <= multiset(g.subs[c]))
    && i <= |g.ws[w].deps| && (forall c: nat :: c < |g.subs| ==> CleanedAt(g, h, w, i, c))
  }

  ghost predicate CleanedAt(g: Graph, h: Graph, w: nat, i: nat, c: nat)
    requires w < |g.ws| && c < |g.subs| == |h.subs| && i <= |g.ws[w].deps|
  {
    OnceIf(multiset(h.subs[c])[w], g.ws[w].active, c in g.ws[w].newDepIds || c in g.ws[w].deps[..i])
  }

  lemma CleanStart(g: Graph, w: nat)
    requires Inv(g) && w < |g.ws|
    ensures Cleaned(g, g, w, |g.ws[w].deps|)
  {
    var d := g.ws[w].deps;
    assert LinkOk(g, w) && d[..|d|] == d;
    forall c: nat | c < |g.subs| ensures CleanedAt(g, g, w, |d|, c) {
      assert SubOnce(g, w, c);
    }
  }

  lemma CleanStep(g: Graph, h: Graph, w: nat, i: nat)
    requires w < |g.ws| && NoDup(g.ws[w].deps) && 0 < i <= |g.ws[w].deps| && Cleaned(g, h, w, i)
    requires g.ws[w].deps[i - 1] < |g.subs|
    ensures var c := g.ws[w].deps[i - 1];
            Cleaned(g, if c in g.ws[w].newDepIds then h else h.(subs := h.subs[c := Remove(h.subs[c], w)]), w, i - 1)
  {
    hide NoDup, Remove, CleanedAt;
    var (c, n) := (g.ws[w].deps[i - 1], i - 1);
    var h' := if c in g.ws[w].newDepIds then h else h.(subs := h.subs[c := Remove(h.subs[c], w)]);
    forall b: nat | b < |g.subs| ensures CleanedAt(g, h', w, n, b) {
      CleanOne(g, h, w, i, b);
    }
  }

  lemma CleanOne(g: Graph, h: Graph, w: nat, i: nat, b: nat)
    requires w < |g.ws| && NoDup(g.ws[w].deps) && 0 < i <= |g.ws[w].deps| && g.ws[w].deps[i - 1] < |g.subs| == |h.subs|
    requires b < |g.subs| && CleanedAt(g, h, w, i, b)
    ensures var c := g.ws[w].deps[i - 1];
            CleanedAt(g, if c in g.ws[w].newDepIds then h else h.(subs := h.subs[c := Remove(h.subs[c], w)]), w,
                i - 1, b)
  {
    hide NoDup, Remove;
    LastOut(g.ws[w].deps, i);
  }

  lemma LastOut(d: seq<nat>, i: nat)
    requires NoDup(d) && 0 < i <= |d|
    ensures d[i - 1] !in d[..i - 1]
    ensures forall b :: b in d[..i] <==> b in d[..i - 1] || b == d[i - 1]
  {
    assert d[..i] == d[..i - 1] + [d[i - 1]];
  }

  /** After the loop the swap leaves the watcher subscribed to exactly what it has just collected. */
  lemma CleanEnd(g: Graph, h: Graph, w: nat)
    requires Inv(g) && w < |g.ws| && Cleaned(g, h, w, 0) && (g.ws[w].dirty || !g.ws[w].lazy)
    ensures Inv(h.(ws := h.ws[w := Swapped(h.ws[w])]))
  {
    var i := h.(ws := h.ws[w := Swapped(h.ws[w])]);
    CleanProgram(g, h, w);
    hide GettersOk, SameProgram, CacheOk;
    assert KeepsClean(g, i);
    forall v: nat | v < |g.ws| ensures LinkOk(i, v) && CacheOk(i, v) && RestOk(i, v) {
      assert LinkOk(g, v) && CacheOk(g, v) && RestOk(g, v);
      if v == w {
        forall c: nat | c < |g.subs| ensures SubOnce(i, w, c) {
          assert CleanedAt(g, h, w, 0, c);
        }
        DirtyCache(i, w);
      } else {
        LinkFrame(g, i, v);
        CacheFrame(g, i, v);
      }
    }
    forall v: nat | Running(i, v) ensures v < |i.ws| {
      assert Running(g, v);
    }
    forall c: nat | c < |i.subs| ensures SubsExist(i, c) {
      assert SubsExist(g, c) && multiset(h.subs[c]) <= multiset(g.subs[c]);
      FewerSubs(h.subs[c], g.subs[c]);
    }
  }

  lemma FewerSubs(s: seq<nat>, t: seq<nat>)
    requires multiset(s) <= multiset(t)
    ensures forall x <- s :: x in t
  {
    forall x | x in s ensures x in t {
      assert x in multiset(s);
    }
  }

  lemma DirtyCache(g: Graph, w: nat)
    requires GettersOk(g) && w < |g.ws| && (g.ws[w].dirty || !g.ws[w].lazy)
    ensures CacheOk(g, w)
  {
  }

  lemma CleanProgram(g: Graph, h: Graph, w: nat)
    requires GettersOk(g) && w < |g.ws| && Cleaned(g, h, w, 0)
    ensures var i := h.(ws := h.ws[w := Swapped(h.ws[w])]); SameProgram(g, i) && GettersOk(i)
  {
    var i := h.(ws := h.ws[w := Swapped(h.ws[w])]);
    hide GettersOk;
    forall v: nat | v < |g.ws| ensures CodeAt(g, i, v) && ActiveAt(g, i, v) {
    }
    SameGetters(g, i);
  }

  // ---------- evaluation ----------

  /**
   The evaluation of e from g to h gave v, on caches that are now clean, and the target has collected all that took
   part.
   */
  ghost predicate Computes(g: Graph, h: Graph, e: Expr, k: nat, v: int)
    requires GettersOk(g) && WellFormed(g, e, k)
  {
    && Evolved(g, h, k) && Inv(h) && Fixes(g, h)
    && WellFormed(h, e, k) && Clear(h, e, k) && v == Shallow(h, e, k)
    && (g.target.Some? && g.target.value < |h.ws| ==> Direct(h, e, k) <= h.ws[g.target.value].newDepIds)
  }

  lemma InvCaches(g: Graph)
    requires Inv(g)
    ensures CachesOk(g)
  {
  }

  /** The value is what the expression meant before. */
  lemma ComputesExact(g: Graph, h: Graph, e: Expr, k: nat, v: int)
    requires GettersOk(g) && WellFormed(g, e, k) && Computes(g, h, e, k, v)
    ensures v == Recall(g, e, k) && (Alive(g, e, k) ==> v == Eval(g, e, k))
  {
    InvCaches(h);
    hide Inv, GettersOk;
    ClearRecall(h, e, k);
    RecallSame(g, h, e, k);
    if Alive(g, e, k) {
      AliveRecall(g, e, k);
    }
  }

  /** Nothing an evaluation changes has an effect on what an expression means. */
  lemma Carry(g: Graph, h: Graph, e: Expr, k: nat)
    requires SameProgram(g, h) && h.cells == g.cells && GettersOk(g) && WellFormed(g, e, k)
    ensures GettersOk(h) && WellFormed(h, e, k)
    ensures Eval(h, e, k) == Eval(g, e, k) && Reads(h, e, k) == Reads(g, e, k) && Alive(h, e, k) == Alive(g, e, k)
  {
    SameGetters(g, h);
    SameWellFormed(g, h, e, k);
    Agree(g, h, e, k);
    SameAlive(g, h, e, k);
  }

  lemma RunningSame(g: Graph, h: Graph, k: nat)
    requires RunningFrom(g, k) && h.target == g.target && h.stack == g.stack
    ensures RunningFrom(h, k)
  {
    forall w: nat | Running(h, w) ensures w >= k {
      assert Running(g, w);
    }
  }

  /** The target keeps what it has collected. */
  lemma Collected(g: Graph, h: Graph, k: nat, s: set<nat>)
    requires Evolved(g, h, k) && Inv(g) && RunningFrom(g, k) && g.target.Some? && g.target.value < |g.ws|
    requires s <= g.ws[g.target.value].newDepIds
    ensures s <= h.ws[g.target.value].newDepIds
  {
    assert Running(g, g.target.value) && Held(g, h, g.target.value);
  }

  /** A part that has been computed is still so after the next one. */
  lemma PartStays(g: Graph, h: Graph, i: Graph, a: Expr, k: nat, x: int)
    requires GettersOk(g) && WellFormed(g, a, k) && Inv(g) && RunningFrom(g, k) && Computes(g, h, a, k, x)
    requires Evolved(h, i, k) && Fixes(h, i) && GettersOk(h) && GettersOk(i)
    ensures WellFormed(i, a, k) && Clear(i, a, k) && x == Shallow(i, a, k) && Evolved(g, i, k) && Fixes(g, i)
    ensures g.target.Some? && g.target.value < |i.ws| ==> Direct(i, a, k) <= i.ws[g.target.value].newDepIds
  {
    hide Inv, Held, GettersOk;
    EvolvedTrans(g, h, i, k);
    FixesTrans(g, h, i);
    FixesClean(h, i);
    SameWellFormed(h, i, a, k);
    CleanFrame(h, i, a, k);
    RunningSame(g, h, k);
    TargetExists(g);
    if g.target.Some? {
      Collected(h, i, k, Direct(h, a, k));
    }
  }

  lemma PlusComputes(g: Graph, h: Graph, i: Graph, a: Expr, b: Expr, k: nat, x: int, y: int)
    requires Inv(g) && GettersOk(g) && WellFormed(g, Plus(a, b), k) && RunningFrom(g, k) && GettersOk(h)
    requires WellFormed(h, b, k)
    requires Computes(g, h, a, k, x) && Computes(h, i, b, k, y)
    ensures Computes(g, i, Plus(a, b), k, x + y)
  {
    InvGetters(i);
    PartStays(g, h, i, a, k, x);
    hide Inv, Evolved, Fixes, GettersOk;
    EvolvedFacts(g, h, k);
  }

  lemma TargetExists(g: Graph)
    requires Inv(g)
    ensures g.target.Some? ==> g.target.value < |g.ws|
  {
    assert g.target.Some? ==> Running(g, g.target.value);
  }

  lemma CondComputes(g: Graph, h: Graph, i: Graph, e: Expr, k: nat, x: int, y: int)
    requires Inv(g) && GettersOk(g) && e.Cond? && WellFormed(g, e, k) && RunningFrom(g, k) && GettersOk(h)
    requires var b := if x != 0 then e.yes else e.no; WellFormed(h, b, k) && Computes(h, i, b, k, y)
    requires Computes(g, h, e.test, k, x)
    ensures Computes(g, i, e, k, y)
  {
    InvGetters(i);
    PartStays(g, h, i, e.test, k, x);
    EvolvedFacts(g, i, k);
    SameWellFormed(g, i, e, k);
    hide Inv, Evolved, Fixes, GettersOk;
    EvolvedFacts(g, h, k);
  }

  /** What Get does to the graph: watchers above w keep everything; w has collected afresh. */
  ghost predicate Gets(g: Graph, h: Graph, w: nat, v: int)
    requires GettersOk(g) && w < |g.ws|
  {
    assert GetterOk(g, w);
    && Evolved(g, h, w + 1) && Inv(h) && Fixes(g, h)
    && h.ws[w].dirty == g.ws[w].dirty && h.ws[w].value == g.ws[w].value
    && Ready(h, w, v) && v == Recall(g, g.ws[w].getter, w)
  }

  class Runtime {
    var g: Graph
    /** The watchers handed to queueWatcher, in order. */
    var queued: seq<nat>

    /** Between operations nothing is being evaluated. */
    ghost predicate Valid()
      reads this
    {
      Inv(g) && g.target.None?
    }

    constructor (cells: seq<int>)
      ensures Valid() && g.cells == cells && g.ws == [] && queued == []
    {
      g := Graph(cells, seq(|cells|, c => []), [], None, []);
      queued := [];
    }

    /** new Watcher: a lazy one starts dirty, another one evaluates its getter at once. */
    method NewWatcher(getter: Expr, lazy: bool) returns (w: nat)
      requires Valid() && WellFormed(g, getter, |g.ws|)
      modifies this`g
      ensures Valid() && Grown(old(g), g, getter, lazy) && w == |old(g).ws| && GettersOk(g) && (!lazy ==> FreshAt(g, w))
      ensures KeepsRest(old(g), g)
    {
      hide Inv, Evolved, RunningFrom, GettersOk, Gets, Grown, FreshAt, UntouchedBut, KeepsRest;
      ghost var g0 := g;
      w := |g.ws|;
      g := g.(ws := g.ws + [Watcher(getter, lazy, true, lazy, 0, [], {}, [], {})]);
      ghost var g1 := g;
      NewKeeps(g0, g1, getter, lazy);
      InvGetters(g1);
      UntouchedRefl(g1);
      UntouchedMore(g1, g1, w);
      GrownKeeps(g0, g1, g1);
      if !lazy {
        Quiet(g, w + 1);
        var v := Get(w);
        GotValue(g1, g, w, v);
        UntouchedOwn(g1, g, w, g.ws[w].(value := v));
        GrownKeeps(g0, g1, g.(ws := g.ws[w := g.ws[w].(value := v)]));
        GrownStays(g0, g1, g.(ws := g.ws[w := g.ws[w].(value := v)]), getter, lazy);
        g := g.(ws := g.ws[w := g.ws[w].(value := v)]);
      }
    }

    /** The reactive setter: nothing if the value is the same, otherwise write and notify. */
    method SetCell(c: nat, v: int)
      requires Valid() && c < |g.cells|
      modifies this
      ensures Valid() && g.cells == old(g).cells[c := v] && SameProgram(old(g), g) && g.subs == old(g).subs
      ensures v == old(g).cells[c] ==> g == old(g)
      ensures v != old(g).cells[c] ==> MarkedUpTo(old(g).(cells := old(g).cells[c := v]), g, old(g).subs[c])
      ensures queued == old(queued) + if v == old(g).cells[c] then [] else Eager(old(g), old(g).subs[c])
    {
      hide Inv, SameProgram, Eager, MarkedUpTo, SubsExist;
      ghost var g0 := g;
      CellExists(g);
      SameSelf(g);
      if v == g.cells[c] {
        return;
      }
      BeforeNotify(g, c, v);
      g := g.(cells := g.cells[c := v]);
      Notify(c);
      NotifyDone(g0, g, c, v);
      MarkedFacts(g0.(cells := g0.cells[c := v]), g, g0.subs[c]);
    }

    /** Dep.notify over a copy of the subscriber list. */
    method Notify(c: nat)
      requires c < |g.subs| && SubsExist(g, c)
      modifies this
      ensures MarkedUpTo(old(g), g, old(g).subs[c])
      ensures queued == old(queued) + Eager(old(g), old(g).subs[c])
    {
      ghost var g0 := g;
      var subs := g.subs[c];
      for i := 0 to |subs|
        invariant MarkedUpTo(g0, g, subs[..i]) && queued == old(queued) + Eager(g0, subs[..i])
      {
        assert subs[i] in subs;
        assert subs[..i + 1] == subs[..i] + [subs[i]];
        MarkOne(g0, g, subs[..i], subs[i]);
        Update(subs[i]);
      }
      assert subs[..|subs|] == subs;
    }

    /** Watcher.update: a lazy watcher becomes dirty, another one is queued. */
    method Update(w: nat)
      requires w < |g.ws|
      modifies this
      ensures if old(g).ws[w].lazy then g == old(g).(ws := old(g).ws[w := old(g).ws[w].(dirty := true)])
              && queued == old(queued)
              else g == old(g) && queued == old(queued) + [w]
    {
      if g.ws[w].lazy {
        g := g.(ws := g.ws[w := g.ws[w].(dirty := true)]);
      } else {
        queued := queued + [w];
      }
    }

    /**
     Watcher.run, for the scheduler: told is what the callback is called with, the new value and the old, if it is.
     */
    method RunWatcher(w: nat) returns (told: Option<(int, int)>)
      requires Valid() && w < |g.ws| && !g.ws[w].lazy
      modifies this`g
      ensures Valid() && SameProgram(old(g), g) && g.cells == old(g).cells && UntouchedBut(old(g), g, Some(w))
      ensures w < |g.ws| && GettersOk(g) && GettersOk(old(g)) && (g.ws[w].active ==> FreshAt(g, w))
              && KeepsClean(old(g), g)
      ensures GetterOk(old(g), w) && (g.ws[w].active ==> g.ws[w].value == Recall(old(g), old(g).ws[w].getter, w))
      ensures told == if g.ws[w].value != old(g).ws[w].value then Some((g.ws[w].value, old(g).ws[w].value)) else None
      ensures !old(g).ws[w].active ==> g == old(g)
    {
      hide Inv, Evolved, RunningFrom, GettersOk, Gets, SameProgram, FreshAt, UntouchedBut, Recall, KeepsClean;
      ghost var g0 := g;
      SameSelf(g);
      InvGetters(g);
      CleanSelf(g);
      UntouchedRefl(g);
      UntouchedMore(g, g, w);
      told := None;
      if g.ws[w].active {
        Quiet(g, w + 1);
        var v := Get(w);
        GotValue(g0, g, w, v);
        UntouchedOwn(g0, g, w, g.ws[w].(value := v));
        if v != g.ws[w].value {
          told := Some((v, g.ws[w].value));
        }
        g := g.(ws := g.ws[w := g.ws[w].(value := v)]);
      }
    }

    /**
     Any sequence of writes, reads, watcher runs and teardowns; states are the graphs before each and after the last.
     Every read of a computed property returns its meaning in the state before it: what evaluating its getter on the
     cells gives, with the properties that are torn down and clean held at their values.  That is evaluating from
     scratch if no computed property it may come to has been torn down by then; and one that is frozen reads the same
     for ever.
     */
    method Session(ops: seq<Op>) returns (got: seq<Option<int>>, ghost states: seq<Graph>)
      requires Valid() && GettersOk(g) && forall op <- ops :: OpOk(g, op)
      modifies this
      ensures Valid() && g.cells == Written(old(g).cells, ops) && SameProgram(Less(old(g), Downs(ops)), g)
      ensures |got| == |ops| && forall n: nat :: n < |ops| ==> AnswerOk(old(g), ops, n, got[n])
      ensures |states| == |ops| + 1 && states[0] == old(g) && states[|ops|] == g
      ensures forall n: nat :: n < |ops| ==> StepAt(states[n], states[n + 1], ops[n], got[n])
      ensures forall w: nat :: Frozen(old(g), w) ==> Frozen(g, w) && g.ws[w] == old(g).ws[w]
    {
      hide Inv, SameProgram, GettersOk, OpOk, AnswerOk, StaysFrozen, Frozen, Less, Downs, Steps;
      ghost var g0 := g;
      got, states := [], [g];
      LessNone(g);
      FrozenRefl(g);
      for n := 0 to |ops|
        invariant Valid() && GettersOk(g) && SameProgram(Less(g0, Downs(ops[..n])), g)
        invariant g.cells == Written(g0.cells, ops[..n]) && StaysFrozen(g0, g)
        invariant forall op <- ops :: OpOk(g, op)
        invariant |got| == n && forall m: nat :: m < n ==> AnswerOk(g0, ops, m, got[m])
        invariant |states| == n + 1 && states[0] == g0 && states[n] == g
        invariant forall m: nat :: m < n ==> StepAt(states[m], states[m + 1], ops[m], got[m])
      {
        assert ops[..n + 1][..n] == ops[..n] && ops[n] in ops;
        ghost var g1 := g;
        var r := Do(ops[n]);
        DoneOp(g0, g1, g, ops, n, r);
        got, states := got + [r], states + [g];
      }
      assert ops[..|ops|] == ops;
      FrozenAll(g0, g);
    }

    /** One operation of a session. */
    method Do(op: Op) returns (r: Option<int>)
      requires Valid() && GettersOk(g) && OpOk(g, op)
      modifies this
      ensures Valid() && GettersOk(g) && Steps(old(g), g, op, r)
    {
      hide Inv, SameProgram, Eager, MarkedUpTo, GettersOk, Computes, RunningFrom, UntouchedBut, FreshAt, StaysFrozen;
      ghost var g0 := g;
      AllRest(g);
      r := None;
      match op {
        case Write(c, v) =>
          SetCell(c, v);
          FrozenWrite(g0, g, c, v);
        case Read(j) =>
          Quiet(g, j + 1);
          var v := ReadComputed(j);
          AfterRead(g0, g, j, v);
          FrozenKept(g0, g, None);
          r := Some(v);
        case Rerun(w) =>
          var _ := RunWatcher(w);
          FrozenKept(g0, g, Some(w));
        case Down(w) =>
          Teardown(w);
          FrozenDown(g0, g, w);
      }
      InvGetters(g);
    }

    /** A computed property whose getter reads cell 0, torn down while clean, misses the next write. */
    static method StaleRead() returns (rt: Runtime, v: int)
      ensures rt.Valid() && |rt.g.ws| == 1 && GettersOk(rt.g) && WellFormed(rt.g, Computed(0), 1)
      ensures Frozen(rt.g, 0) && v == rt.g.ws[0].value && v != Eval(rt.g, Computed(0), 1)
    {
      hide Inv, SameCode, SameProgram, UntouchedBut;
      rt := new Runtime([1]);
      var w := rt.NewWatcher(Cell(0), true);
      ghost var g1 := rt.g;
      AllRest(g1);
      Quiet(rt.g, 1);
      v := rt.ReadComputed(0);
      ghost var g2 := rt.g;
      AfterRead(g1, g2, 0, v);
      OneCell(g1);
      AllRest(g2);
      SameOne(g1, g2);
      rt.Teardown(0);
      ghost var g3 := rt.g;
      AllRest(g3);
      assert g3.ws[0].value == 1 && Frozen(g3, 0);
      rt.SetCell(0, 2);
      FrozenWrite(g3, rt.g, 0, 2);
      FrozenAll(g3, rt.g);
      AllRest(rt.g);
      Quiet(rt.g, 1);
      ghost var g4 := rt.g;
      v := rt.ReadComputed(0);
      AfterRead(g4, rt.g, 0, v);
      FrozenKept(g4, rt.g, None);
      FrozenAll(g4, rt.g);
      AllRest(rt.g);
      OneCell(rt.g);
    }

    /** Watcher.teardown, not during the watcher's own evaluation. */
    method Teardown(w: nat)
      requires Inv(g) && w < |g.ws| && !Running(g, w)
      modifies this`g
      ensures Inv(g) && g.cells == old(g).cells && SameCode(old(g), g) && g.target == old(g).target
      ensures g.stack == old(g).stack
      ensures !g.ws[w].active
      ensures old(g).ws[w].active ==> forall c :: 0 <= c < |g.subs| ==> w !in g.subs[c]
      ensures g.ws == old(g).ws[w := old(g).ws[w].(active := false)] && UntouchedBut(old(g), g, Some(w))
      ensures !old(g).ws[w].active ==> g == old(g)
    {
      hide Inv, Cleaned, Remove, NoDup, SameCode, UntouchedBut;
      ghost var g0 := g;
      SameSelf(g);
      UntouchedRefl(g);
      UntouchedMore(g, g, w);
      if g.ws[w].active {
        CleanStart(g, w);
        DepsExist(g, w);
        AtRest(g, w);
        var i := |g.ws[w].deps|;
        while i > 0
          invariant 0 <= i <= |g0.ws[w].deps| && Cleaned(g0, g, w, i) && g.ws == g0.ws && |g.subs| == |g0.subs|
        {
          CleanStep(g0, g, w, i);
          i := i - 1;
          var c := g.ws[w].deps[i];
          g := g.(subs := g.subs[c := Remove(g.subs[c], w)]);
        }
        TornDown(g0, g, w);
        UntouchedDown(g0, g, w);
        g := g.(ws := g.ws[w := g.ws[w].(active := false)]);
      }
    }

    method AddDep(w: nat, c: nat)
      requires w < |g.ws| && c < |g.subs|
      modifies this`g
      ensures g == AddDepTo(old(g), w, c)
    {
      var x := g.ws[w];
      if c !in x.newDepIds {
        g := g.(ws := g.ws[w := x.(newDepIds := x.newDepIds + {c}, newDeps := x.newDeps + [c])]);
        if c !in x.depIds {
          g := g.(subs := g.subs[c := g.subs[c] + [w]]);
        }
      }
    }

    /** Dep.depend. */
    method Depend(c: nat)
      requires Inv(g) && c < |g.subs|
      modifies this`g
      ensures Inv(g) && Evolved(old(g), g, 0) && Untouched(old(g), g) && Fixes(old(g), g)
      ensures g.target.Some? ==> g.target.value < |g.ws| == |old(g).ws| &&
                                 g.ws[g.target.value].newDepIds == old(g).ws[g.target.value].newDepIds + {c}
      ensures g.target.None? ==> g == old(g)
    {
      hide Inv, Evolved, Untouched, Fixes;
      TargetExists(g);
      UntouchedRefl(g);
      InvGetters(g);
      FixesSame(g, g);
      if g.target.Some? {
        AddDepProgram(g, g.target.value, c);
        FixesSame(g, AddDepTo(g, g.target.value, c));
        UntouchedAddDep(g, g.target.value, c);
        AddDepKeeps(g, g.target.value, c);
        AddDep(g.target.value, c);
        EvolvedFacts(old(g), g, 0);
      } else {
        EvolvedRefl(g);
      }
    }

    /** Watcher.depend: the target takes over all dependencies of watcher j. */
    method DependAll(j: nat)
      requires Inv(g) && j < |g.ws| && g.target.Some? && g.target.value > j
      modifies this`g
      ensures Inv(g) && Evolved(old(g), g, 0) && |g.ws| == |old(g).ws| && Untouched(old(g), g) && Fixes(old(g), g)
      ensures g.target.value < |g.ws| && Elements(old(g).ws[j].deps) <= g.ws[g.target.value].newDepIds
      ensures g.ws[j] == old(g).ws[j]
    {
      hide Inv, Evolved, Elements, UntouchedBut, Fixes;
      ghost var g0 := g;
      UntouchedRefl(g);
      InvGetters(g);
      FixesSame(g, g);
      var deps := g.ws[j].deps;
      DepsExist(g, j);
      EvolvedRefl(g);
      TargetExists(g);
      var i := |deps|;
      while i > 0
        invariant 0 <= i <= |deps| && Inv(g) && Evolved(g0, g, 0) && |g.ws| == |g0.ws|
        invariant g.target == g0.target && |g.subs| == |g0.subs| && g.target.value < |g.ws|
        invariant g.ws[j] == g0.ws[j] && Untouched(g0, g) && Fixes(g0, g)
        invariant forall n :: i <= n < |deps| ==> deps[n] in g.ws[g.target.value].newDepIds
      {
        i := i - 1;
        ghost var g1 := g;
        Depend(deps[i]);
        EvolvedFacts(g0, g1, 0);
        FixesTrans(g0, g1, g);
        EvolvedTrans(g0, g1, g, 0);
        EvolvedFacts(g1, g, 0);
        HeldAt(g1, g, 0, j);
        UntouchedTrans(g0, g1, g, None);
      }
      AllElements(deps, g.ws[g.target.value].newDepIds);
    }

    /** Running the getter expression e of a watcher numbered k or above. */
    method Run(e: Expr, ghost k: nat) returns (v: int)
      requires Inv(g) && GettersOk(g) && WellFormed(g, e, k) && RunningFrom(g, k)
      modifies this`g
      ensures Computes(old(g), g, e, k, v) && Untouched(old(g), g)
      decreases k, 0, e
    {
      hide Inv, Evolved, RunningFrom, Computes, GettersOk, UntouchedBut, Fixes;
      ghost var g0 := g;
      UntouchedRefl(g);
      match e {
        case Lit(n) =>
          v := n;
          LitComputes(g, n, k);
        case Cell(c) =>
          v := g.cells[c];
          CellExists(g);
          Depend(c);
          EvolvedFacts(g0, g, 0);
          CellComputes(g0, g, c, k);
        case Computed(j) =>
          RunningAbove(g, k, j + 1);
          v := ReadComputed(j);
          ComputedWiden(g0, g, j, k, v);
        case Plus(a, b) =>
          var x := Run(a, k);
          ghost var g1 := g;
          AfterRun(g0, g1, a, b, k, x);
          var y := Run(b, k);
          UntouchedTrans(g0, g1, g, None);
          PlusComputes(g0, g1, g, a, b, k, x, y);
          v := x + y;
        case Cond(t, yes, no) =>
          var x := Run(t, k);
          ghost var g1 := g;
          AfterRun(g0, g1, t, if x != 0 then yes else no, k, x);
          if x != 0 {
            v := Run(yes, k);
          } else {
            v := Run(no, k);
          }
          UntouchedTrans(g0, g1, g, None);
          CondComputes(g0, g1, g, e, k, x, v);
      }
    }

    /** The computed getter: re-evaluate if dirty, let the target depend on it, return the cached value. */
    method ReadComputed(j: nat) returns (v: int)
      requires Inv(g) && GettersOk(g) && j < |g.ws| && g.ws[j].lazy && RunningFrom(g, j + 1)
      modifies this`g
      ensures Computes(old(g), g, Computed(j), j + 1, v) && Untouched(old(g), g)
      ensures |g.ws| == |old(g).ws| && !g.ws[j].dirty && v == g.ws[j].value
      decreases j, 3
    {
      hide Inv, Evolved, RunningFrom, Computes, GettersOk, Elements, UntouchedBut, Fixes;
      ghost var g0 := g;
      UntouchedRefl(g);
      ghost var g1 := g;
      EvolvedRefl(g);
      EvolvedWiden(g, g, 0, j + 1);
      FixesSame(g, g);
      if g.ws[j].dirty {
        Evaluate(j);
        EvolvedFacts(g0, g, j + 1);
        RunningSame(g0, g, j + 1);
        g1 := g;
      }
      TargetAbove(g, j + 1);
      if g.target.Some? {
        DepsExist(g, j);
        DependAll(j);
        EvolvedFacts(g0, g1, j + 1);
        FixesTrans(g0, g1, g);
        EvolvedWiden(g1, g, 0, j + 1);
        EvolvedTrans(g0, g1, g, j + 1);
        EvolvedFacts(g1, g, 0);
        UntouchedTrans(g0, g1, g, None);
      }
      v := g.ws[j].value;
      CachedComputes(g0, g, j, v);
    }

    method Evaluate(j: nat)
      requires Inv(g) && GettersOk(g) && j < |g.ws| && g.ws[j].lazy && g.ws[j].dirty && RunningFrom(g, j + 1)
      modifies this`g
      ensures Inv(g) && Evolved(old(g), g, j + 1) && |g.ws| == |old(g).ws| && !g.ws[j].dirty && Untouched(old(g), g)
      ensures Fixes(old(g), g)
      decreases j, 2
    {
      hide Inv, Evolved, RunningFrom, GettersOk, UntouchedBut, Fixes, Ready, Recall;
      ghost var g0 := g;
      var v := Get(j);
      ghost var g1 := g;
      UntouchedValue(g0, g1, j, g1.ws[j].(value := v, dirty := false));
      EvolvedFacts(g0, g1, j + 1);
      g := g.(ws := g.ws[j := g.ws[j].(value := v, dirty := false)]);
      CleanCache(g0, g1, j, v);
    }

    /** Watcher.get: push, run the getter, pop, drop stale dependencies. */
    method Get(w: nat) returns (v: int)
      requires Inv(g) && GettersOk(g) && w < |g.ws| && RunningFrom(g, w + 1) && (g.ws[w].dirty || !g.ws[w].lazy)
      modifies this`g
      ensures Gets(old(g), g, w, v) && |g.ws| == |old(g).ws| && UntouchedBut(old(g), g, Some(w))
      decreases w, 1
    {
      hide Inv, Evolved, RunningFrom, Computes, GettersOk, Gets, Push, Pop, UntouchedBut, Cleaned, Fixes;
      ghost var g0 := g;
      PushReady(g0, w);
      g := Push(g, w);
      ghost var g1 := g;
      v := Run(g.ws[w].getter, w);
      ghost var g2 := g;
      PopReady(g0, g1, g2, w, v);
      g := Pop(g);
      ghost var g3 := g;
      CleanupDeps(w);
      GetDone(g0, g1, g2, g3, g, w, v);
      UntouchedGet(g0, g1, g2, g3, g, w);
    }

    method CleanupDeps(w: nat)
      requires w < |g.ws| && DepsListed(g, w) && Cleaned(g, g, w, |g.ws[w].deps|)
      modifies this`g
      ensures w < |old(g).ws| == |g.ws|
      ensures Cleaned(old(g), g.(ws := old(g).ws), w, 0) && g.ws == old(g).ws[w := Swapped(old(g).ws[w])]
    {
      hide NoDup, Remove, Cleaned;
      ghost var g0 := g;
      var i := |g.ws[w].deps|;
      while i > 0
        invariant 0 <= i <= |g0.ws[w].deps| && Cleaned(g0, g, w, i) && g.ws == g0.ws && |g.subs| == |g0.subs|
      {
        CleanStep(g0, g, w, i);
        i := i - 1;
        var c := g.ws[w].deps[i];
        if c !in g.ws[w].newDepIds {
          g := g.(subs := g.subs[c := Remove(g.subs[c], w)]);
        }
      }
      var x := g.ws[w];
      assert g.(ws := g0.ws) == g;
      g := g.(ws := g.ws[w := x.(depIds := x.newDepIds, deps := x.newDeps, newDepIds := {}, newDeps := [])]);
    }
  }

  /** The watchers at rest in g are still there in h, as they were and with the same subscriptions. */
  ghost predicate KeepsRest(g: Graph, h: Graph) {
    |g.ws| <= |h.ws| && |h.subs| == |g.subs| && forall v: nat :: Resting(g, v) ==> KeptRest(g, h, v)
  }

  ghost predicate KeptRest(g: Graph, h: Graph, v: nat)
    requires v < |g.ws| <= |h.ws| && |g.subs| == |h.subs|
  {
    Resting(h, v) && h.ws[v] == g.ws[v] && forall c: nat :: c < |g.subs| ==>
        multiset(h.subs[c])[v] == multiset(g.subs[c])[v]
  }

  lemma GrownKeeps(g: Graph, g1: Graph, h: Graph)
    requires |g1.ws| == |g.ws| + 1 && g1 == g.(ws := g1.ws) && g1.ws[..|g.ws|] == g.ws
    requires UntouchedBut(g1, h, Some(|g.ws|))
    ensures KeepsRest(g, h)
  {
    forall v: nat | Resting(g, v) ensures KeptRest(g, h, v) {
      assert g1.ws[v] == g1.ws[..|g.ws|][v];
      assert Running(g1, v) <==> Running(g, v);
      assert StillAt(g1, h, v);
    }
  }

  // ---------- eager watchers ----------

  /** An active watcher that is not lazy is up to date. */
  ghost predicate EagerAt(g: Graph, w: nat)
    requires GettersOk(g) && w < |g.ws|
  {
    !g.ws[w].lazy && g.ws[w].active ==> FreshAt(g, w)
  }

  /** What changes neither the cells nor the program nor the watcher nor a clean cache. */
  lemma EagerKept(g: Graph, h: Graph, w: nat)
    requires SameProgram(g, h) && h.cells == g.cells && GettersOk(g) && w < |g.ws| && h.ws[w] == g.ws[w]
             && EagerAt(g, w) && KeepsClean(g, h)
    ensures GettersOk(h) && EagerAt(h, w)
  {
    SameGetters(g, h);
    if !g.ws[w].lazy && g.ws[w].active {
      FreshFrame(g, h, w);
    }
  }

  /** An evaluation at rest leaves the clean caches. */
  lemma RestClean(g: Graph, h: Graph, x: Option<nat>)
    requires Inv(g) && g.target.None? && UntouchedBut(g, h, x) && (x.Some? ==> x.value < |g.ws| && !g.ws[x.value].lazy)
    ensures KeepsClean(g, h)
  {
    hide Inv;
    AllRest(g);
    forall j: nat | j < |g.ws| && g.ws[j].lazy && !g.ws[j].dirty ensures SameCacheAt(g, h, j) {
      assert Resting(g, j);
      assert StillAt(g, h, j);
    }
  }

  /** A write leaves up to date whoever it does not queue. */
  lemma EagerWrite(g: Graph, h: Graph, c: nat, v: int, w: nat)
    requires Inv(g) && g.target.None? && GettersOk(g) && GettersOk(h) && c < |g.cells| && w < |g.ws| == |h.ws|
    requires EagerAt(g, w) && c < |g.subs| && SameProgram(g, h) && h.cells == g.cells[c := v]
    requires v != g.cells[c] ==> MarkedUpTo(g.(cells := g.cells[c := v]), h, g.subs[c]) && w !in Eager(g, g.subs[c])
    requires v == g.cells[c] ==> h == g
    ensures EagerAt(h, w)
  {
    assert CodeAt(g, h, w) && ActiveAt(g, h, w);
    if v != g.cells[c] && !g.ws[w].lazy && g.ws[w].active {
      assert MarkedAt(g.(cells := g.cells[c := v]), h, g.subs[c], w);
      EagerListed(g, g.subs[c], w);
      assert LinkOk(g, w) && SubOnce(g, w, c) && w !in multiset(g.subs[c]);
      hide GettersOk, Inv, FreshAt;
      WriteFresh(g, h, c, v, w);
    }
  }

  lemma {:induction false} EagerListed(g: Graph, s: seq<nat>, w: nat)
    requires w < |g.ws| && !g.ws[w].lazy
    ensures w in Eager(g, s) <==> w in s
  {
    if s != [] {
      EagerListed(g, s[..|s| - 1], w);
      assert s == s[..|s| - 1] + [s[|s| - 1]];
    }
  }

  lemma {:induction false} EagerOnly(g: Graph, s: seq<nat>)
    ensures forall w <- Eager(g, s) :: w < |g.ws| && !g.ws[w].lazy
  {
    if s != [] {
      EagerOnly(g, s[..|s| - 1]);
    }
  }

  /** Tearing another watcher down leaves it up to date. */
  lemma EagerDown(g: Graph, h: Graph, x: nat, w: nat)
    requires GettersOk(g) && x < |g.ws| && w < |g.ws| && h.cells == g.cells && SameCode(g, h) && EagerAt(g, w)
    requires h.ws == g.ws[x := g.ws[x].(active := false)]
    ensures GettersOk(h) && EagerAt(h, w)
  {
    SameGetters(g, h);
    assert KeepsClean(g, h);
    if w != x && !g.ws[w].lazy && g.ws[w].active {
      FreshFrame(g, h, w);
    }
  }

  /** A new watcher leaves the others up to date. */
  lemma EagerGrown(g: Graph, h: Graph, getter: Expr, lazy: bool, w: nat)
    requires GettersOk(g) && GettersOk(h) && Grown(g, h, getter, lazy) && w < |g.ws| && EagerAt(g, w)
             && h.ws[w] == g.ws[w] && KeepsClean(g, h)
    ensures EagerAt(h, w)
  {
    if !g.ws[w].lazy && g.ws[w].active {
      FreshFrame(g, h, w);
    }
  }

  // ---------- frozen computed properties ----------

  /** Torn down while clean, and on no subscriber list. */
  ghost predicate Frozen(g: Graph, w: nat) {
    && w < |g.ws| && g.ws[w].lazy && !g.ws[w].active && !g.ws[w].dirty && !Running(g, w)
    && forall c: nat :: c < |g.subs| ==> w !in g.subs[c]
  }

  ghost predicate StaysFrozen(g: Graph, h: Graph) {
    forall w: nat :: Frozen(g, w) ==> FrozenAt(g, h, w)
  }

  ghost predicate FrozenAt(g: Graph, h: Graph, w: nat) {
    Frozen(h, w) && w < |g.ws| && h.ws[w] == g.ws[w]
  }

  lemma FrozenAll(g: Graph, h: Graph)
    requires StaysFrozen(g, h)
    ensures forall w: nat :: Frozen(g, w) ==> Frozen(h, w) && h.ws[w] == g.ws[w]
  {
    forall w: nat | Frozen(g, w) ensures Frozen(h, w) && h.ws[w] == g.ws[w] {
      assert FrozenAt(g, h, w);
    }
  }

  lemma FrozenRefl(g: Graph)
    ensures StaysFrozen(g, g)
  {
  }

  lemma FrozenTrans(g: Graph, h: Graph, i: Graph)
    requires StaysFrozen(g, h) && StaysFrozen(h, i)
    ensures StaysFrozen(g, i)
  {
    forall w: nat | Frozen(g, w) ensures FrozenAt(g, i, w) {
      assert FrozenAt(g, h, w) && FrozenAt(h, i, w);
    }
  }

  /** No evaluation reaches a frozen computed property. */
  lemma FrozenKept(g: Graph, h: Graph, w: Option<nat>)
    requires UntouchedBut(g, h, w) && (w.Some? ==> w.value < |g.ws| && !g.ws[w.value].lazy)
    ensures StaysFrozen(g, h)
  {
    forall v: nat | Frozen(g, v) ensures FrozenAt(g, h, v) {
      assert StillAt(g, h, v);
      forall c: nat | c < |h.subs| ensures v !in h.subs[c] {
        assert v !in multiset(g.subs[c]) && v !in multiset(h.subs[c]);
      }
    }
  }

  /** Nor does a new watcher. */
  lemma FrozenGrown(g: Graph, h: Graph)
    requires KeepsRest(g, h)
    ensures StaysFrozen(g, h)
  {
    forall v: nat | Frozen(g, v) ensures FrozenAt(g, h, v) {
      assert KeptRest(g, h, v);
      forall c: nat | c < |h.subs| ensures v !in h.subs[c] {
        assert v !in multiset(g.subs[c]) && v !in multiset(h.subs[c]);
      }
    }
  }

  /** Between operations no watcher is being evaluated. */
  lemma AllRest(g: Graph)
    requires Inv(g) && g.target.None?
    ensures g.stack == [] && |g.subs| == |g.cells| && GettersOk(g) && forall w: nat :: !Running(g, w)
  {
  }

  lemma FrozenWrite(g: Graph, h: Graph, c: nat, v: int)
    requires c < |g.cells| && c < |g.subs|
    requires h == g || MarkedUpTo(g.(cells := g.cells[c := v]), h, g.subs[c])
    ensures StaysFrozen(g, h)
  {
    forall w: nat | Frozen(g, w) ensures FrozenAt(g, h, w) {
      assert h == g || MarkedAt(g.(cells := g.cells[c := v]), h, g.subs[c], w);
    }
  }

  lemma FrozenDown(g: Graph, h: Graph, w: nat)
    requires w < |g.ws| && UntouchedBut(g, h, Some(w)) && h.target == g.target && h.stack == g.stack
    requires h.ws == g.ws[w := g.ws[w].(active := false)]
    requires g.ws[w].active || h == g
    ensures StaysFrozen(g, h)
  {
    forall v: nat | Frozen(g, v) ensures FrozenAt(g, h, v) {
      if v != w {
        assert StillAt(g, h, v);
        forall c: nat | c < |h.subs| ensures v !in h.subs[c] {
          assert v !in multiset(g.subs[c]) && v !in multiset(h.subs[c]);
        }
      }
    }
  }

  // ---------- sessions ----------

  /** A cell is written, a computed property is read, a queued watcher runs, or a watcher is torn down. */
  datatype Op = Write(c: nat, v: int) | Read(j: nat) | Rerun(w: nat) | Down(w: nat)

  ghost predicate OpOk(g: Graph, op: Op) {
    match op
    case Write(c, _) => c < |g.cells|
    case Read(j) => j < |g.ws| && g.ws[j].lazy
    case Rerun(w) => w < |g.ws| && !g.ws[w].lazy
    case Down(w) => w < |g.ws|
  }

  ghost predicate AllActive(g: Graph) {
    forall w :: 0 <= w < |g.ws| ==> g.ws[w].active
  }

  /** The watchers torn down by the operations. */
  ghost function Downs(ops: seq<Op>): set<nat> {
    if ops == [] then {}
    else
      var n := |ops| - 1;
      Downs(ops[..n]) + if ops[n].Down? then {ops[n].w} else {}
  }

  /** The program with some watchers torn down. */
  ghost function Less(g: Graph, downs: set<nat>): Graph {
    g.(ws := seq(|g.ws|, w requires 0 <= w < |g.ws| => g.ws[w].(active := g.ws[w].active && w !in downs)))
  }

  /** The cells after the writes among the operations. */
  ghost function Written(cells: seq<int>, ops: seq<Op>): (r: seq<int>)
    ensures |r| == |cells|
  {
    if ops == [] then cells
    else
      var n := |ops| - 1;
      var r := Written(cells, ops[..n]);
      if ops[n].Write? && ops[n].c < |r| then r[ops[n].c := ops[n].v] else r
  }

  /** What the computed property reads as when it is evaluated from scratch on these cells. */
  ghost function ScratchRead(g: Graph, cells: seq<int>, j: nat): int
    requires GettersOk(g) && |cells| == |g.cells| && j < |g.ws| && g.ws[j].lazy
  {
    var h := g.(cells := cells);
    OtherCells(g, h);
    Eval(h, Computed(j), j + 1)
  }

  lemma OtherCells(g: Graph, h: Graph)
    requires GettersOk(g) && |h.cells| == |g.cells| && h.ws == g.ws
    ensures SameCode(g, h) && GettersOk(h)
  {
    forall w: nat | w < |g.ws| ensures CodeAt(g, h, w) {
    }
    SameGetters(g, h);
  }

  lemma LessCode(g: Graph, downs: set<nat>)
    ensures SameCode(g, Less(g, downs))
    ensures GettersOk(g) ==> GettersOk(Less(g, downs))
  {
    var h := Less(g, downs);
    forall w: nat | w < |g.ws| ensures CodeAt(g, h, w) {
    }
    if GettersOk(g) {
      SameGetters(g, h);
    }
  }

  lemma LessNone(g: Graph)
    ensures SameProgram(Less(g, {}), g) && Downs([]) == {}
  {
    var h := Less(g, {});
    forall w: nat | w < |g.ws| ensures CodeAt(h, g, w) && ActiveAt(h, g, w) {
    }
  }

  /** No computed property that computed property j may come to is torn down after these operations. */
  ghost predicate AliveAfter(g: Graph, ops: seq<Op>, j: nat)
    requires GettersOk(g) && j < |g.ws| && g.ws[j].lazy
  {
    LessCode(g, Downs(ops));
    assert CodeAt(g, Less(g, Downs(ops)), j);
    Alive(Less(g, Downs(ops)), Computed(j), j + 1)
  }

  /** The n-th answer of a session that starts from g. */
  ghost predicate AnswerOk(g: Graph, ops: seq<Op>, n: nat, r: Option<int>)
    requires GettersOk(g) && n < |ops|
  {
    ops[n].Read? && OpOk(g, ops[n]) ==>
      var j := ops[n].j;
      && r.Some?
      && (AliveAfter(g, ops[..n], j) ==> r.value == ScratchRead(g, Written(g.cells, ops[..n]), j))
      && (Frozen(g, j) ==> r.value == g.ws[j].value)
  }

  /** With no watcher torn down, every expression is alive. */
  lemma {:induction false} AllAlive(g: Graph, e: Expr, k: nat)
    requires AllActive(g) && GettersOk(g) && WellFormed(g, e, k)
    ensures Alive(g, e, k)
    decreases k, e
  {
    match e
    case Lit(_) =>
    case Cell(_) =>
    case Computed(j) =>
      assert GetterOk(g, j);
      AllAlive(g, g.ws[j].getter, j);
    case Plus(a, b) =>
      AllAlive(g, a, k);
      AllAlive(g, b, k);
    case Cond(t, y, n) =>
      AllAlive(g, t, k);
      AllAlive(g, y, k);
      AllAlive(g, n, k);
  }

  /** What one operation does to the cells and the program, and what it answers. */
  ghost predicate Steps(g: Graph, h: Graph, op: Op, r: Option<int>)
    requires GettersOk(g) && OpOk(g, op)
  {
    && h.cells == (if op.Write? then g.cells[op.c := op.v] else g.cells)
    && StaysFrozen(g, h)
    && (if op.Down? then Lost(g, h, op.w) else SameProgram(g, h))
    && (op.Read? ==>
          && r == Some(Recall(g, Computed(op.j), op.j + 1))
          && Fixes(g, h) && !h.ws[op.j].dirty && h.ws[op.j].value == r.value)
  }

  ghost predicate StepAt(g: Graph, h: Graph, op: Op, r: Option<int>) {
    GettersOk(g) && OpOk(g, op) && Steps(g, h, op, r)
  }

  ghost predicate Lost(g: Graph, h: Graph, w: nat)
    requires w < |g.ws|
  {
    |h.cells| == |g.cells| && h.ws == g.ws[w := g.ws[w].(active := false)]
  }

  /** A getter that reads cell 0. */
  lemma OneCell(g: Graph)
    requires GettersOk(g) && |g.cells| > 0 && |g.ws| > 0 && g.ws[0].lazy && g.ws[0].getter == Cell(0)
    ensures WellFormed(g, Computed(0), 1) && Eval(g, Computed(0), 1) == g.cells[0]
    ensures g.ws[0].active ==> Alive(g, Computed(0), 1)
  {
    assert GetterOk(g, 0);
  }

  lemma SameOne(g: Graph, h: Graph)
    requires SameProgram(g, h) && |g.ws| > 0
    ensures h.ws[0].lazy == g.ws[0].lazy && h.ws[0].active == g.ws[0].active && h.ws[0].getter == g.ws[0].getter
  {
    assert CodeAt(g, h, 0) && ActiveAt(g, h, 0);
  }

  lemma OpsStay(g: Graph, h: Graph, op: Op, r: Option<int>, o: Op)
    requires GettersOk(g) && OpOk(g, op) && Steps(g, h, op, r) && OpOk(g, o)
    ensures OpOk(h, o)
  {
    if !op.Down? {
      assert o.Read? ==> CodeAt(g, h, o.j);
      assert o.Rerun? ==> CodeAt(g, h, o.w);
    }
  }

  /** The value a read gives is the one from scratch, whatever state the caches are in. */
  lemma ReadIsScratch(g0: Graph, g: Graph, downs: set<nat>, j: nat)
    requires GettersOk(g) && GettersOk(g0) && SameProgram(Less(g0, downs), g) && j < |g.ws| && g.ws[j].lazy
    ensures j < |g0.ws| && g0.ws[j].lazy && |g.cells| == |g0.cells|
            && Eval(g, Computed(j), j + 1) == ScratchRead(g0, g.cells, j)
    ensures GettersOk(Less(g0, downs)) && WellFormed(Less(g0, downs), Computed(j), j + 1)
    ensures Alive(Less(g0, downs), Computed(j), j + 1) == Alive(g, Computed(j), j + 1)
  {
    var l := Less(g0, downs);
    LessCode(g0, downs);
    assert CodeAt(l, g, j) && CodeAt(g0, l, j);
    SameAlive(l, g, Computed(j), j + 1);
    var k := g0.(cells := g.cells);
    OtherCells(g0, k);
    forall w: nat | w < |g.ws| ensures CodeAt(k, g, w) {
      assert CodeAt(g0, l, w) && CodeAt(l, g, w);
    }
    Agree(k, g, Computed(j), j + 1);
  }

  lemma ProgramStep(g0: Graph, g: Graph, h: Graph, downs: set<nat>, op: Op)
    requires OpOk(g, op) && SameProgram(Less(g0, downs), g)
    requires if op.Down? then Lost(g, h, op.w) else SameProgram(g, h)
    ensures SameProgram(Less(g0, if op.Down? then downs + {op.w} else downs), h)
  {
    var (l, m) := (Less(g0, downs), Less(g0, if op.Down? then downs + {op.w} else downs));
    forall w: nat | w < |g.ws| ensures CodeAt(m, h, w) && ActiveAt(m, h, w) {
      assert CodeAt(l, g, w) && ActiveAt(l, g, w);
      if !op.Down? {
        assert CodeAt(g, h, w) && ActiveAt(g, h, w);
      }
    }
  }

  /** One more operation of a session. */
  lemma DoneOp(g0: Graph, g: Graph, h: Graph, ops: seq<Op>, n: nat, r: Option<int>)
    requires n < |ops| && GettersOk(g0) && GettersOk(g) && OpOk(g, ops[n]) && Steps(g, h, ops[n], r)
    requires SameProgram(Less(g0, Downs(ops[..n])), g) && g.cells == Written(g0.cells, ops[..n]) && StaysFrozen(g0, g)
    ensures SameProgram(Less(g0, Downs(ops[..n + 1])), h) && h.cells == Written(g0.cells, ops[..n + 1])
    ensures StaysFrozen(g0, h) && AnswerOk(g0, ops, n, r)
    ensures forall o :: OpOk(g, o) ==> OpOk(h, o)
  {
    var (op, downs) := (ops[n], Downs(ops[..n]));
    assert ops[..n + 1][..n] == ops[..n];
    assert Downs(ops[..n + 1]) == if op.Down? then downs + {op.w} else downs;
    ProgramStep(g0, g, h, downs, op);
    FrozenTrans(g0, g, h);
    forall o | OpOk(g, o) ensures OpOk(h, o) {
      OpsStay(g, h, op, r, o);
    }
    if op.Read? {
      ReadIsScratch(g0, g, downs, op.j);
      if Alive(g, Computed(op.j), op.j + 1) {
        AliveRecall(g, Computed(op.j), op.j + 1);
      }
      assert Frozen(g0, op.j) ==> FrozenAt(g0, g, op.j);
    }
  }

  /** A read at rest leaves the cells and the program as they were. */
  lemma AfterRead(g: Graph, h: Graph, j: nat, v: int)
    requires Inv(g) && g.target.None? && GettersOk(g) && j < |g.ws| && g.ws[j].lazy
    requires Computes(g, h, Computed(j), j + 1, v)
    ensures Inv(h) && h.target.None? && h.cells == g.cells && SameProgram(g, h)
    ensures v == Recall(g, Computed(j), j + 1) && (Alive(g, Computed(j), j + 1) ==> v == Eval(g, Computed(j), j + 1))
    ensures Fixes(g, h)
  {
    hide Inv, GettersOk, Alive, Eval, Reads, Recall;
    EvolvedFacts(g, h, j + 1);
    ComputesExact(g, h, Computed(j), j + 1, v);
  }

  // ---------- between operations ----------

  lemma BeforeNotify(g: Graph, c: nat, v: int)
    requires Inv(g) && c < |g.cells|
    ensures c < |g.subs| && SubsExist(g.(cells := g.cells[c := v]), c)
    ensures Eager(g.(cells := g.cells[c := v]), g.subs[c]) == Eager(g, g.subs[c])
  {
    assert SubsExist(g, c);
    EagerSame(g, g.(cells := g.cells[c := v]), g.subs[c]);
  }

  lemma {:induction false} EagerSame(g: Graph, h: Graph, s: seq<nat>)
    requires h.ws == g.ws
    ensures Eager(h, s) == Eager(g, s)
  {
    if s != [] {
      EagerSame(g, h, s[..|s| - 1]);
    }
  }

  lemma MarkedFacts(g: Graph, h: Graph, s: seq<nat>)
    requires MarkedUpTo(g, h, s)
    ensures h == g.(ws := h.ws)
  {
  }

  /** The non-lazy watchers of a list, in order. */
  ghost function Eager(g: Graph, s: seq<nat>): seq<nat> {
    if s == [] then [] else
    Eager(g, s[..|s| - 1]) + (var w := s[|s| - 1]; if w < |g.ws| && !g.ws[w].lazy then [w] else [])
  }

  /** The lazy watchers of s have been marked dirty, and nothing else has changed. */
  ghost predicate MarkedUpTo(g: Graph, h: Graph, s: seq<nat>) {
    && h == g.(ws := h.ws) && |h.ws| == |g.ws|
    && forall w: nat :: w < |g.ws| ==> MarkedAt(g, h, s, w)
  }

  ghost predicate MarkedAt(g: Graph, h: Graph, s: seq<nat>, w: nat)
    requires w < |g.ws| == |h.ws|
  {
    h.ws[w] == if g.ws[w].lazy && w in s then g.ws[w].(dirty := true) else g.ws[w]
  }

  lemma MarkOne(g: Graph, h: Graph, s: seq<nat>, x: nat)
    requires MarkedUpTo(g, h, s) && x < |g.ws|
    ensures MarkedUpTo(g, if h.ws[x].lazy then h.(ws := h.ws[x := h.ws[x].(dirty := true)]) else h, s + [x])
    ensures Eager(g, s + [x]) == Eager(g, s) + if h.ws[x].lazy then [] else [x]
  {
    assert MarkedAt(g, h, s, x);
    var i := if h.ws[x].lazy then h.(ws := h.ws[x := h.ws[x].(dirty := true)]) else h;
    forall w: nat | w < |g.ws| ensures MarkedAt(g, i, s + [x], w) {
      assert MarkedAt(g, h, s, w);
    }
    assert (s + [x])[..|s|] == s;
  }

  /** A write and its notification: whatever stays clean did not read the cell. */
  lemma NotifyDone(g: Graph, h: Graph, c: nat, v: int)
    requires Inv(g) && g.target.None? && c < |g.cells| && c < |g.subs|
    requires MarkedUpTo(g.(cells := g.cells[c := v]), h, g.subs[c])
    ensures Inv(h) && SameProgram(g, h)
  {
    var k := g.(cells := g.cells[c := v]);
    forall w: nat | w < |g.ws| ensures CodeAt(g, h, w) && ActiveAt(g, h, w) {
      assert MarkedAt(k, h, g.subs[c], w);
    }
    SameGetters(g, h);
    hide GettersOk, SameProgram, CacheOk, LinkOk, MarkedUpTo;
    forall w: nat | w < |g.ws| ensures LinkOk(h, w) && CacheOk(h, w) && RestOk(h, w) {
      assert LinkOk(g, w) && CacheOk(g, w) && RestOk(g, w)
          && MarkedAt(k, h, g.subs[c], w) by { MarkedOne(k, h, g.subs[c], w); }
      LinkOver(g, h, w);
      StaysClean(g, h, c, v, w);
      assert !Running(g, w);
    }
    forall d: nat | d < |h.subs| ensures SubsExist(h, d) {
      assert SubsExist(g, d);
    }
  }

  lemma MarkedOne(g: Graph, h: Graph, s: seq<nat>, w: nat)
    requires MarkedUpTo(g, h, s) && w < |g.ws|
    ensures MarkedAt(g, h, s, w)
  {
  }

  lemma StaysClean(g: Graph, h: Graph, c: nat, v: int, w: nat)
    requires Inv(g) && g.target.None? && c < |g.cells| && c < |g.subs| && w < |g.ws| && GettersOk(g) && GettersOk(h)
    requires MarkedUpTo(g.(cells := g.cells[c := v]), h, g.subs[c])
    ensures CacheOk(h, w)
  {
    MarkedOne(g.(cells := g.cells[c := v]), h, g.subs[c], w);
    assert LinkOk(g, w) && CacheOk(g, w);
    hide GettersOk, FreshAt, Inv, MarkedUpTo;
    if g.ws[w].lazy && g.ws[w].active && !h.ws[w].dirty {
      assert SubOnce(g, w, c) && w !in multiset(g.subs[c]);
      WriteFresh(g, h, c, v, w);
    }
  }

  /** A write leaves up to date whoever does not depend on the cell. */
  lemma WriteFresh(g: Graph, h: Graph, c: nat, v: int, w: nat)
    requires Inv(g) && g.target.None? && c < |g.cells| && c < |g.subs| && w < |g.ws| && GettersOk(g) && GettersOk(h)
    requires MarkedUpTo(g.(cells := g.cells[c := v]), h, g.subs[c]) && c !in g.ws[w].depIds && FreshAt(g, w)
    requires h.ws[w].value == g.ws[w].value && h.ws[w].depIds == g.ws[w].depIds && h.ws[w].getter == g.ws[w].getter
    ensures FreshAt(h, w)
  {
    assert GetterOk(g, w) && GetterOk(h, w);
    var e := g.ws[w].getter;
    forall j <- Passed(g, e, w) ensures SameCacheAt(g, h, j) {
      MarkedOne(g.(cells := g.cells[c := v]), h, g.subs[c], j);
      Unmarked(g, c, j);
    }
    hide Inv, GettersOk, MarkedUpTo;
    ShallowFrame(g, h, e, w);
  }

  /** Whoever does not depend on a cell is not among its subscribers. */
  lemma Unmarked(g: Graph, c: nat, j: nat)
    requires Inv(g) && g.target.None? && c < |g.subs| && j < |g.ws| && c !in g.ws[j].depIds
    ensures j !in g.subs[c]
  {
    hide GettersOk, CacheOk;
    assert LinkOk(g, j) && RestOk(g, j) && !Running(g, j) && SubOnce(g, j, c) && j !in multiset(g.subs[c]);
  }

  lemma SameSelf(g: Graph)
    ensures SameProgram(g, g) && SameCode(g, g)
  {
  }

  lemma InvGetters(g: Graph)
    requires Inv(g)
    ensures GettersOk(g) && forall w: nat :: w < |g.ws| ==> GetterOk(g, w)
  {
  }

  lemma Quiet(g: Graph, k: nat)
    requires g.target.None? && Inv(g)
    ensures RunningFrom(g, k) && GettersOk(g)
  {
  }

  lemma AtRest(g: Graph, w: nat)
    requires Inv(g) && w < |g.ws| && !Running(g, w)
    ensures g.ws[w].newDeps == [] && g.ws[w].newDepIds == {}
  {
    assert RestOk(g, w);
  }

  /** The graph with one more watcher. */
  ghost predicate Grown(g: Graph, h: Graph, getter: Expr, lazy: bool) {
    && |h.ws| == |g.ws| + 1 && h.cells == g.cells
    && (forall w: nat :: w < |g.ws| ==> GrownAt(g, h, w))
    && var x := h.ws[|g.ws|]; x.getter == getter && x.lazy == lazy && x.active && x.dirty == lazy
  }

  ghost predicate GrownAt(g: Graph, h: Graph, w: nat)
    requires w < |g.ws| && w < |h.ws|
  {
    g.ws[w].getter == h.ws[w].getter && g.ws[w].lazy == h.ws[w].lazy && g.ws[w].active == h.ws[w].active
  }

  lemma {:induction false} GrownWellFormed(g: Graph, h: Graph, e: Expr, k: nat)
    requires |g.cells| == |h.cells| && |g.ws| <= |h.ws| && WellFormed(g, e, k)
    requires forall w: nat :: w < |g.ws| ==> GrownAt(g, h, w)
    ensures WellFormed(h, e, k)
  {
    match e
    case Lit(_) =>
    case Cell(_) =>
    case Computed(j) => assert GrownAt(g, h, j);
    case Plus(a, b) => GrownWellFormed(g, h, a, k); GrownWellFormed(g, h, b, k);
    case Cond(t, y, n) => GrownWellFormed(g, h, t, k); GrownWellFormed(g, h, y, k); GrownWellFormed(g, h, n, k);
  }

  lemma NewKeeps(g: Graph, h: Graph, getter: Expr, lazy: bool)
    requires Inv(g) && g.target.None? && WellFormed(g, getter, |g.ws|)
    requires h == g.(ws := g.ws + [Watcher(getter, lazy, true, lazy, 0, [], {}, [], {})])
    ensures Inv(h) && Grown(g, h, getter, lazy)
  {
    var n := |g.ws|;
    forall w: nat | w < n ensures GrownAt(g, h, w) {
    }
    forall w: nat | w < |h.ws| ensures GetterOk(h, w) {
      if w < n {
        assert GetterOk(g, w);
      }
      GrownWellFormed(g, h, h.ws[w].getter, w);
    }
    forall c: nat | c < |h.subs| ensures SubsExist(h, c) {
      assert SubsExist(g, c);
    }
    forall w: nat | w < |h.ws| ensures LinkOk(h, w) && RestOk(h, w) {
      NewLink(g, h, w);
    }
    hide LinkOk, SubsExist;
    assert KeepsClean(g, h);
    forall w: nat | w < |h.ws| ensures CacheOk(h, w) {
      if w < n {
        assert CacheOk(g, w);
        if g.ws[w].lazy && g.ws[w].active && !g.ws[w].dirty {
          FreshFrame(g, h, w);
        }
      }
    }
  }

  lemma NewLink(g: Graph, h: Graph, w: nat)
    requires Inv(g) && g.target.None? && h == g.(ws := h.ws) && |h.ws| == |g.ws| + 1 && h.ws[..|g.ws|] == g.ws
    requires w < |h.ws|
    requires w == |g.ws| ==> h.ws[w].deps == h.ws[w].newDeps == [] && h.ws[w].depIds == h.ws[w].newDepIds == {}
    ensures LinkOk(h, w) && RestOk(h, w)
  {
    hide GettersOk, CacheOk;
    if w < |g.ws| {
      assert LinkOk(g, w) && RestOk(g, w) && h.ws[w] == g.ws[w];
      forall c: nat | c < |g.subs| ensures SubOnce(h, w, c) {
        assert SubOnce(g, w, c);
      }
    } else {
      forall c: nat | c < |g.subs| ensures SubOnce(h, w, c) {
        assert SubsExist(g, c) && w !in g.subs[c];
        assert w !in multiset(g.subs[c]);
      }
    }
  }

  /** Storing the value a get has just returned. */
  lemma GotValue(g: Graph, h: Graph, w: nat, v: int)
    requires GettersOk(g) && w < |g.ws| && !g.ws[w].lazy && Gets(g, h, w, v)
    ensures w < |h.ws| == |g.ws| && h.ws[w].value == g.ws[w].value
    ensures var i := h.(ws := h.ws[w := h.ws[w].(value := v)]);
            && Inv(i) && SameProgram(g, i) && i.cells == g.cells && i.target == g.target && GettersOk(i)
               && GetterOk(i, w)
            && i.ws[w].dirty == g.ws[w].dirty && i.ws[w].getter == g.ws[w].getter
            && FreshAt(i, w) && GetterOk(g, w) && v == Recall(g, g.ws[w].getter, w) && KeepsClean(g, i)
  {
    assert GetterOk(g, w) && SameWatcher(g, h, w);
    var i := h.(ws := h.ws[w := h.ws[w].(value := v)]);
    CleanProgramOf(h, i);
    forall x: nat | x < |g.ws| ensures CodeAt(g, i, x) && ActiveAt(g, i, x) {
      assert SameWatcher(g, h, x) && SameWatcher(h, i, x);
    }
    FixesClean(g, h);
    assert KeepsClean(h, i) && GetterOk(h, w) && GetterOk(i, w);
    hide GettersOk, SameProgram, Recall;
    CleanFrame(h, i, h.ws[w].getter, w);
    ValueKeeps(h, i, w);
  }

  lemma ValueKeeps(h: Graph, i: Graph, w: nat)
    requires Inv(h) && GettersOk(i) && SameProgram(h, i) && w < |h.ws| && !h.ws[w].lazy
    requires |i.ws| == |h.ws| && i == h.(ws := h.ws[w := h.ws[w].(value := i.ws[w].value)])
    ensures Inv(i)
  {
    assert KeepsClean(h, i);
    hide GettersOk, SameProgram, FreshAt, KeepsClean;
    forall x: nat | x < |h.ws| ensures LinkOk(i, x) && CacheOk(i, x) && RestOk(i, x) {
      assert LinkOk(h, x) && CacheOk(h, x) && RestOk(h, x);
      LinkOver(h, i, x);
      if x != w {
        CacheFrame(h, i, x);
      } else {
        DirtyCache(i, w);
      }
    }
    forall x: nat | Running(i, x) ensures x < |i.ws| {
      assert Running(h, x);
    }
    forall c: nat | c < |i.subs| ensures SubsExist(i, c) {
      assert SubsExist(h, c);
    }
  }

  lemma GrownStays(g: Graph, h: Graph, i: Graph, getter: Expr, lazy: bool)
    requires Grown(g, h, getter, lazy) && SameProgram(h, i) && i.cells == h.cells
    requires i.ws[|g.ws|].dirty == h.ws[|g.ws|].dirty
    ensures Grown(g, i, getter, lazy)
  {
    assert SameWatcher(h, i, |g.ws|);
    forall w: nat | w < |g.ws| ensures GrownAt(g, i, w) {
      assert GrownAt(g, h, w) && SameWatcher(h, i, w);
    }
  }

  /** A torn-down watcher is on no list; everybody else is as before. */
  lemma TornDown(g: Graph, h: Graph, w: nat)
    requires Inv(g) && w < |g.ws| && !Running(g, w) && g.ws[w].active && g.ws[w].newDepIds == {} && Cleaned(g, h, w, 0)
    ensures var i := h.(ws := h.ws[w := h.ws[w].(active := false)]);
            && Inv(i) && SameCode(g, i) && i.cells == g.cells && i.target == g.target && i.stack == g.stack
            && (forall c :: 0 <= c < |i.subs| ==> w !in i.subs[c])
            && i.ws == g.ws[w := g.ws[w].(active := false)]
  {
    var i := h.(ws := h.ws[w := h.ws[w].(active := false)]);
    forall v: nat | v < |g.ws| ensures CodeAt(g, i, v) {
    }
    SameGetters(g, i);
    forall c | 0 <= c < |i.subs| ensures w !in i.subs[c] {
      assert CleanedAt(g, h, w, 0, c) && w !in multiset(i.subs[c]);
    }
    hide GettersOk, SameCode, CacheOk;
    forall v: nat | v < |g.ws| ensures LinkOk(i, v) && CacheOk(i, v) && RestOk(i, v) {
      assert LinkOk(g, v) && CacheOk(g, v) && RestOk(g, v);
      if v != w {
        LinkFrame(g, i, v);
      } else {
        assert DepsOk(i.ws[w], |i.subs|);
        forall c: nat | c < |i.subs| ensures SubOnce(i, w, c) {
          assert w !in multiset(i.subs[c]);
        }
      }
      CacheDown(g, i, v, w);
    }
    forall v: nat | Running(i, v) ensures v < |i.ws| {
      assert Running(g, v);
    }
    forall c: nat | c < |i.subs| ensures SubsExist(i, c) {
      assert SubsExist(g, c) && multiset(h.subs[c]) <= multiset(g.subs[c]);
      FewerSubs(h.subs[c], g.subs[c]);
    }
  }

  lemma CacheDown(g: Graph, i: Graph, v: nat, w: nat)
    requires SameCode(g, i) && GettersOk(g) && GettersOk(i) && g.cells == i.cells && v < |g.ws| && w < |g.ws|
    requires CacheOk(g, v) && i.ws == g.ws[w := g.ws[w].(active := false)]
    ensures CacheOk(i, v)
  {
    assert KeepsClean(g, i);
    if v != w && g.ws[v].lazy && g.ws[v].active && !g.ws[v].dirty {
      FreshFrame(g, i, v);
    }
  }

  ghost predicate DepsListed(g: Graph, w: nat)
    requires w < |g.ws|
  {
    NoDup(g.ws[w].deps) && forall i :: 0 <= i < |g.ws[w].deps| ==> g.ws[w].deps[i] < |g.subs|
  }

  lemma LitComputes(g: Graph, n: int, k: nat)
    requires Inv(g) && GettersOk(g)
    ensures Computes(g, g, Lit(n), k, n)
  {
    hide Inv;
    FixesSame(g, g);
    EvolvedRefl(g);
    EvolvedWiden(g, g, 0, k);
  }

  lemma CellExists(g: Graph)
    requires Inv(g)
    ensures |g.subs| == |g.cells|
  {
  }

  lemma CellComputes(g: Graph, h: Graph, c: nat, k: nat)
    requires GettersOk(g) && c < |g.cells| && Inv(h) && Evolved(g, h, 0) && Fixes(g, h)
    requires g.target.Some? && g.target.value < |h.ws| ==> c in h.ws[g.target.value].newDepIds
    ensures Computes(g, h, Cell(c), k, g.cells[c])
  {
    hide Inv;
    EvolvedWiden(g, h, 0, k);
  }

  lemma RunningAbove(g: Graph, k: nat, j: nat)
    requires RunningFrom(g, k) && j <= k
    ensures RunningFrom(g, j)
  {
  }

  lemma ComputedWiden(g: Graph, h: Graph, j: nat, k: nat, v: int)
    requires GettersOk(g) && j < k && j < |g.ws| && g.ws[j].lazy && Computes(g, h, Computed(j), j + 1, v)
    ensures Computes(g, h, Computed(j), k, v)
  {
    hide Inv;
    assert GetterOk(g, j);
    EvolvedWiden(g, h, j + 1, k);
  }

  lemma AfterRun(g: Graph, h: Graph, a: Expr, b: Expr, k: nat, x: int)
    requires GettersOk(g) && WellFormed(g, a, k) && WellFormed(g, b, k) && RunningFrom(g, k) && Computes(g, h, a, k, x)
    ensures Inv(h) && GettersOk(h) && WellFormed(h, b, k) && RunningFrom(h, k)
  {
    hide Inv;
    Carry(g, h, b, k);
    RunningSame(g, h, k);
  }

  lemma TargetAbove(g: Graph, k: nat)
    requires RunningFrom(g, k)
    ensures g.target.Some? ==> g.target.value >= k
  {
    assert g.target.Some? ==> Running(g, g.target.value);
  }

  /** A clean computed property, whose dependencies the target has taken over. */
  lemma CachedComputes(g: Graph, i: Graph, j: nat, v: int)
    requires GettersOk(g) && j < |g.ws| && g.ws[j].lazy && Evolved(g, i, j + 1) && Inv(i) && Fixes(g, i)
    requires |i.ws| == |g.ws| && !i.ws[j].dirty && v == i.ws[j].value
    requires g.target.Some? && g.target.value < |i.ws| ==> i.ws[j].depIds <= i.ws[g.target.value].newDepIds
    ensures Computes(g, i, Computed(j), j + 1, v)
  {
    hide Inv, Fixes;
    EvolvedFacts(g, i, j + 1);
    assert CodeAt(g, i, j);
  }

  lemma CleanCache(g: Graph, h: Graph, j: nat, v: int)
    requires GettersOk(g) && j < |g.ws| && g.ws[j].lazy && g.ws[j].dirty && Gets(g, h, j, v) && |h.ws| == |g.ws|
    ensures var i := h.(ws := h.ws[j := h.ws[j].(value := v, dirty := false)]);
            Inv(i) && Evolved(g, i, j + 1) && Fixes(g, i)
  {
    assert GetterOk(g, j) && SameWatcher(g, h, j);
    var i := h.(ws := h.ws[j := h.ws[j].(value := v, dirty := false)]);
    CleanProgramOf(h, i);
    EvolvedOver(g, h, i, j);
    assert KeepsClean(h, i) && GetterOk(h, j) && GetterOk(i, j);
    forall x: nat | x < |g.ws| && g.ws[x].lazy ensures FixedAt(g, i, x) {
      assert FixedAt(g, h, x);
    }
    hide Evolved, GettersOk, SameProgram, KeepsClean, Recall;
    CleanFrame(h, i, h.ws[j].getter, j);
    assert FreshAt(i, j);
    hide FreshAt;
    forall w: nat | w < |h.ws| ensures LinkOk(i, w) && CacheOk(i, w) && RestOk(i, w) {
      assert LinkOk(h, w) && CacheOk(h, w) && RestOk(h, w);
      LinkOver(h, i, w);
      if w != j {
        CacheFrame(h, i, w);
      }
    }
    forall w: nat | Running(i, w) ensures w < |i.ws| {
      assert Running(h, w);
    }
    forall c: nat | c < |i.subs| ensures SubsExist(i, c) {
      assert SubsExist(h, c);
    }
  }

  /** Changes of values and dirty marks leave the program. */
  lemma CleanProgramOf(g: Graph, h: Graph)
    requires GettersOk(g) && |h.ws| == |g.ws| && |h.cells| == |g.cells|
    requires forall w: nat :: w < |g.ws| ==> CodeAt(g, h, w)
    requires forall w: nat :: w < |g.ws| ==> ActiveAt(g, h, w)
    ensures SameProgram(g, h) && GettersOk(h)
  {
    SameGetters(g, h);
  }

  lemma EvolvedOver(g: Graph, h: Graph, i: Graph, j: nat)
    requires Evolved(g, h, j + 1) && SameProgram(h, i) && i == h.(ws := i.ws) && |i.ws| == |h.ws|
    requires forall w: nat :: j < w < |h.ws| ==> i.ws[w] == h.ws[w]
    ensures Evolved(g, i, j + 1)
  {
    forall w: nat | w < |g.ws| ensures CodeAt(g, i, w) && ActiveAt(g, i, w) {
      assert SameWatcher(g, h, w) && SameWatcher(h, i, w);
    }
    forall w: nat | j + 1 <= w < |g.ws| ensures Held(g, i, w) {
      assert Held(g, h, w);
    }
  }

  lemma LinkOver(g: Graph, h: Graph, w: nat)
    requires w < |g.ws| == |h.ws| && g.subs == h.subs && LinkOk(g, w)
    requires h.ws[w] == g.ws[w].(value := h.ws[w].value, dirty := h.ws[w].dirty)
    ensures LinkOk(h, w)
  {
    forall c: nat | c < |g.subs| ensures SubOnce(h, w, c) {
      assert SubOnce(g, w, c);
    }
  }

  lemma PushReady(g: Graph, w: nat)
    requires Inv(g) && GettersOk(g) && w < |g.ws| && RunningFrom(g, w + 1)
    ensures Inv(Push(g, w)) && GettersOk(Push(g, w)) && WellFormed(Push(g, w), g.ws[w].getter, w)
    ensures RunningFrom(Push(g, w), w) && Push(g, w).ws == g.ws
  {
    assert GetterOk(g, w);
    PushKeeps(g, w);
    Reframe(g, Push(g, w));
    Carry(g, Push(g, w), g.ws[w].getter, w);
    PushPop(g, w, Push(g, w));
  }

  lemma PopKeeps(g: Graph, h: Graph, w: nat)
    requires (g.target.None? ==> g.stack == []) && Inv(h) && w < |h.ws| && h.ws[w].newDeps == []
             && h.ws[w].newDepIds == {}
    requires h.target == Push(g, w).target && h.stack == Push(g, w).stack
    ensures Inv(h.(target := g.target, stack := g.stack))
  {
    var i := h.(target := g.target, stack := g.stack);
    PushPop(g, w, h);
    hide GettersOk, CacheOk, LinkOk;
    Reframe(h, i);
    forall v: nat ensures Running(i, v) ==> Running(h, v) {
      assert Running(i, v) <==> Running(g, v);
      assert Running(h, v) <==> Running(Push(g, w), v);
    }
    forall v: nat | v < |h.ws| ensures RestOk(i, v) {
      assert RestOk(h, v) && (Running(h, v) <==> Running(Push(g, w), v)) && (Running(i, v) <==> Running(g, v));
    }
  }

  /** Together: the watcher's state after get. */
  lemma GetDone(g: Graph, g1: Graph, g2: Graph, g3: Graph, h: Graph, w: nat, v: int)
    requires Inv(g) && GettersOk(g) && w < |g.ws| && g1 == Push(g, w) && (g.ws[w].dirty || !g.ws[w].lazy)
    requires GettersOk(g1) && WellFormed(g1, g.ws[w].getter, w) && Computes(g1, g2, g.ws[w].getter, w, v)
    requires g3 == g2.(target := g.target, stack := g.stack) && w < |g3.ws| == |h.ws|
    requires Cleaned(g3, h.(ws := g3.ws), w, 0) && h.ws == g3.ws[w := Swapped(g3.ws[w])]
    ensures Gets(g, h, w, v)
  {
    GetEvolved(g, g1, g2, g3, h, w, v);
    assert GetterOk(g, w) && Held(g1, g2, w) && g1.target == Some(w);
    GetInv(g, g1, g2, g3, h, w);
    ComputesExact(g1, g2, g.ws[w].getter, w, v);
    InvGetters(h);
    hide Inv, Evolved, Held, Cleaned, GettersOk;
    GetValue(g, g1, g2, h, w, v);
  }

  lemma GetValue(g: Graph, g1: Graph, g2: Graph, h: Graph, w: nat, v: int)
    requires GettersOk(g) && GettersOk(g1) && GettersOk(h) && w < |g.ws| == |g1.ws| == |g2.ws| == |h.ws|
    requires g1 == g.(target := g1.target, stack := g1.stack) && g1.target == Some(w) && SameProgram(g, h)
    requires h.ws == g2.ws[w := Swapped(g2.ws[w])] && h.cells == g2.cells == g.cells && (g.ws[w].dirty || !g.ws[w].lazy)
    requires g2.ws[w].dirty == g.ws[w].dirty && Fixes(g1, g2)
    requires WellFormed(g1, g.ws[w].getter, w) && WellFormed(g2, g.ws[w].getter, w)
             && v == Recall(g1, g.ws[w].getter, w)
    requires var e := g.ws[w].getter;
             Clear(g2, e, w) && v == Shallow(g2, e, w) && Direct(g2, e, w) <= g2.ws[w].newDepIds
    ensures Ready(h, w, v) && GetterOk(g, w) && v == Recall(g, g.ws[w].getter, w) && Fixes(g, h)
  {
    var e := g.ws[w].getter;
    assert GetterOk(g, w) && GetterOk(h, w) && CodeAt(g, h, w);
    forall j <- Passed(g2, e, w) ensures SameCacheAt(g2, h, j) {
    }
    ShallowFrame(g2, h, e, w);
    SameSelf(g);
    FixesSame(g, g1);
    forall x: nat | x < |g.ws| ensures CodeAt(g, g1, x) && ActiveAt(g, g1, x) {
    }
    RecallSame(g, g1, e, w);
    forall x: nat | x < |g.ws| && g.ws[x].lazy ensures FixedAt(g, h, x) {
      assert FixedAt(g1, g2, x) && GetterOk(g, x) && GetterOk(g1, x);
      RecallSame(g, g1, g.ws[x].getter, x);
    }
  }

  lemma GetEvolved(g: Graph, g1: Graph, g2: Graph, g3: Graph, h: Graph, w: nat, v: int)
    requires w < |g.ws| && g1 == Push(g, w) && GettersOk(g1) && WellFormed(g1, g.ws[w].getter, w)
    requires Computes(g1, g2, g.ws[w].getter, w, v)
    requires g3 == g2.(target := g.target, stack := g.stack) && w < |g3.ws| == |h.ws|
    requires Cleaned(g3, h.(ws := g3.ws), w, 0) && h.ws == g3.ws[w := Swapped(g3.ws[w])]
    ensures Evolved(g, h, w + 1) && SameProgram(g, g1)
    ensures h == g3.(subs := h.subs, ws := h.ws) && |h.subs| == |g3.subs|
  {
    hide Inv, GettersOk, Alive, Eval, Reads, CleanedAt;
    assert h.(ws := g3.ws) == g3.(subs := h.subs);
    forall x: nat | x < |g.ws| ensures CodeAt(g, g1, x) && ActiveAt(g, g1, x) && CodeAt(g, h, x) && ActiveAt(g, h, x) {
      assert SameWatcher(g1, g2, x);
    }
    forall x: nat | w + 1 <= x < |g.ws| ensures Held(g, h, x) {
      assert Held(g1, g2, x);
    }
  }

  lemma GetInv(g: Graph, g1: Graph, g2: Graph, g3: Graph, h: Graph, w: nat)
    requires Inv(g) && w < |g.ws| && g1 == Push(g, w) && Inv(g2) && w < |g2.ws|
    requires g2.target == g1.target && g2.stack == g1.stack && (g2.ws[w].dirty || !g2.ws[w].lazy)
    requires g3 == g2.(target := g.target, stack := g.stack) && w < |g3.ws| == |h.ws|
    requires Cleaned(g3, h.(ws := g3.ws), w, 0) && h.ws == g3.ws[w := Swapped(g3.ws[w])]
    ensures Inv(h)
  {
    var c := h.(ws := g3.ws, target := g2.target, stack := g2.stack);
    assert Cleaned(g2, c, w, 0) by {
      forall d: nat | d < |g2.subs| ensures CleanedAt(g2, c, w, 0, d) {
        assert CleanedAt(g3, h.(ws := g3.ws), w, 0, d);
      }
    }
    hide Inv, Cleaned;
    CleanEnd(g2, c, w);
    var i := c.(ws := c.ws[w := Swapped(c.ws[w])]);
    TargetStack(g);
    PopKeeps(g, i, w);
    assert h == i.(target := g.target, stack := g.stack);
  }

  lemma TargetStack(g: Graph)
    requires Inv(g)
    ensures g.target.None? ==> g.stack == []
  {
  }

  /** After the getter has run and the target is restored. */
  lemma PopReady(g: Graph, g1: Graph, g2: Graph, w: nat, v: int)
    requires Inv(g) && GettersOk(g) && w < |g.ws| && RunningFrom(g, w + 1) && g1 == Push(g, w)
    requires GettersOk(g1) && WellFormed(g1, g.ws[w].getter, w) && Computes(g1, g2, g.ws[w].getter, w, v)
    ensures w < |Pop(g2).ws| == |g.ws| && DepsListed(Pop(g2), w) && Cleaned(Pop(g2), Pop(g2), w, |Pop(g2).ws[w].deps|)
    ensures Pop(g2).target == g.target && Pop(g2).stack == g.stack
    ensures Pop(g2) == g2.(target := g.target, stack := g.stack)
  {
    hide Held;
    PushPop(g, w, g2);
    DepsExist(g2, w);
    CleanStart(g2, w);
    var h := Pop(g2);
    assert h.subs == g2.subs && h.ws == g2.ws;
    forall c: nat | c < |h.subs| ensures CleanedAt(h, h, w, |h.ws[w].deps|, c) {
      assert CleanedAt(g2, g2, w, |h.ws[w].deps|, c);
    }
  }

  lemma EvolvedRefl(g: Graph)
    ensures Evolved(g, g, 0)
  {
  }

  lemma EvolvedFacts(g: Graph, h: Graph, k: nat)
    requires Evolved(g, h, k)
    ensures h.target == g.target && h.stack == g.stack && |h.subs| == |g.subs| && |h.ws| == |g.ws| && h.cells == g.cells
    ensures SameProgram(g, h)
  {
  }

  lemma HeldAt(g: Graph, h: Graph, k: nat, w: nat)
    requires Evolved(g, h, k) && k <= w < |g.ws| && g.target != Some(w)
    ensures w < |h.ws| && h.ws[w] == g.ws[w]
  {
    assert Held(g, h, w);
  }

  lemma DepsExist(g: Graph, j: nat)
    requires Inv(g) && j < |g.ws|
    ensures forall i :: 0 <= i < |g.ws[j].deps| ==> g.ws[j].deps[i] < |g.subs|
    ensures Elements(g.ws[j].deps) == g.ws[j].depIds && NoDup(g.ws[j].deps)
  {
    assert LinkOk(g, j);
    forall i | 0 <= i < |g.ws[j].deps| ensures g.ws[j].deps[i] < |g.subs| {
      assert g.ws[j].deps[i] in Elements(g.ws[j].deps);
    }
  }

  lemma AllElements(s: seq<nat>, t: set<nat>)
    requires forall n :: 0 <= n < |s| ==> s[n] in t
    ensures Elements(s) <= t
  {
  }
}
