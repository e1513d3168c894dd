/**
 The keyed child diff of vue_stu/vue.js: updateChildren and the DOM operations it uses.
 A DOM element is a number, the parent's child list is a sequence of them, and an old
 child that has been set to undefined is marked in `gone`.
 */
module ChildDiff {
  import opened Basics

  type Elm = nat


  /** What `isDef(data) && isDef(attrs) && attrs.type` can give. */
  datatype InputType = NoAttrs | NoType | Type(name: string)

  /** A virtual node, by what sameVnode looks at. */
  datatype VNode = VNode(key: Option<string>, tag: Option<string>, isComment: bool, hasData: bool, inputType: InputType)

  predicate SameInputType(a: VNode, b: VNode) {
    a.tag != Some("input") || a.inputType == b.inputType
  }

  predicate SameVnode(a: VNode, b: VNode) {
    && a.key == b.key && a.tag == b.tag && a.isComment == b.isComment
    && a.hasData == b.hasData && SameInputType(a, b)
  }

  ghost predicate KeysDistinct(ns: seq<VNode>) {
    forall i, j :: 0 <= i < j < |ns| && ns[i].key.Some? ==> ns[i].key != ns[j].key
  }

  ghost predicate Below(s: seq<Elm>, bound: Elm) {
    forall i :: 0 <= i < |s| ==> s[i] < bound
  }

  // ---------- the DOM ----------

  /** Position of e, or the length. */
  function Find(s: seq<Elm>, e: Elm): (i: nat)
    ensures i <= |s| && e !in s[..i] && (i < |s| ==> s[i] == e)
  {
    if s == [] || s[0] == e then 0 else 1 + Find(s[1..], e)
  }

  function Without(s: seq<Elm>, e: Elm): seq<Elm> {
    var i := Find(s, e);
    if i == |s| then s else Omit(s, i)
  }

  /** insertBefore: the element leaves its old place, if any, and goes before ref, or last. */
  function Insert(s: seq<Elm>, e: Elm, ref: Option<Elm>): seq<Elm> {
    var t := Without(s, e);
    var i := if ref.None? then |t| else Find(t, ref.value);
    t[..i] + [e] + t[i..]
  }

  function After(s: seq<Elm>, e: Elm): Option<Elm> {
    var i := Find(s, e);
    if i + 1 < |s| then Some(s[i + 1]) else None
  }

  lemma FindIn(a: seq<Elm>, e: Elm, b: seq<Elm>)
    requires e !in a
    ensures Find(a + [e] + b, e) == |a|
  {
    var s := a + [e] + b;
    assert s[|a|] == e;
  }

  lemma WithoutIn(a: seq<Elm>, e: Elm, b: seq<Elm>)
    requires e !in a
    ensures Without(a + [e] + b, e) == a + b
  {
    FindIn(a, e, b);
    assert (a + [e] + b)[..|a|] == a && (a + [e] + b)[|a| + 1..] == b;
  }

  /** r is row s without e, in the same order. */
  ghost predicate Leaves(s: seq<Elm>, r: seq<Elm>, e: Elm) {
    && NoDup(r) && e !in r
    && (forall x :: x != e ==> (x in r <==> x in s))
    && (forall i, j :: 0 <= i < j < |r| ==> Find(s, r[i]) < Find(s, r[j]))
  }

  /** In row r the element stands once, right before ref or at the end; the others stand as in s. */
  ghost predicate Stands(s: seq<Elm>, r: seq<Elm>, e: Elm, ref: Option<Elm>) {
    && NoDup(r) && e in r
    && Leaves(s, Without(r, e), e)
    && (ref.None? ==> r[|r| - 1] == e)
    && (ref.Some? && ref.value in s && ref.value != e ==> After(r, e) == ref)
  }

  lemma FindAt(s: seq<Elm>, i: nat)
    requires NoDup(s) && i < |s|
    ensures Find(s, s[i]) == i
  {
    var k := Find(s, s[i]);
    assert forall j :: 0 <= j < k ==> s[j] == s[..k][j];
  }

  /** Position i of a row, seen past position k. */
  function Past(k: nat, i: nat): nat {
    if i < k then i else i + 1
  }

  lemma WithoutLeaves(s: seq<Elm>, e: Elm)
    requires NoDup(s)
    ensures Leaves(s, Without(s, e), e)
  {
    var (k, r) := (Find(s, e), Without(s, e));
    if k == |s| {
      assert s[..k] == s;
      forall i: nat | i < |s| ensures Find(s, s[i]) == i {
        FindAt(s, i);
      }
    } else {
      assert forall i: nat :: i < |r| ==> r[i] == s[Past(k, i)];
      forall i: nat | i < |r| ensures Find(s, r[i]) == Past(k, i) {
        FindAt(s, Past(k, i));
      }
      forall x | x in s && x != e
        ensures x in r
      {
        var i :| 0 <= i < |s| && s[i] == x;
        assert r[if i < k then i else i - 1] == x;
      }
    }
  }

  lemma InsertShape(t: seq<Elm>, e: Elm, i: nat)
    requires NoDup(t) && e !in t && i <= |t|
    ensures var r := t[..i] + [e] + t[i..];
            NoDup(r) && e in r && Without(r, e) == t && Find(r, e) == i && (i < |t| ==> r[i + 1] == t[i])
  {
    hide NoDup, Without, Find;
    var (a, b) := (t[..i], t[i..]);
    assert a + b == t;
    FindIn(a, e, b);
    WithoutIn(a, e, b);
    NoDupWith(a, b, e);
    assert (a + [e] + b)[i] == e;
  }

  lemma InsertStands(s: seq<Elm>, e: Elm, ref: Option<Elm>)
    requires NoDup(s)
    ensures Stands(s, Insert(s, e, ref), e, ref)
  {
    hide Without, NoDup;
    WithoutLeaves(s, e);
    var t := Without(s, e);
    var i := if ref.None? then |t| else Find(t, ref.value);
    InsertShape(t, e, i);
    if ref.Some? && i == |t| {
      assert t[..i] == t;
    }
  }

  /** The reference node for "in front of b": its first element, or none at the end. */
  function FirstOf(b: seq<Elm>): Option<Elm> {
    if b == [] then None else Some(b[0])
  }

  lemma InsertAt(a: seq<Elm>, b: seq<Elm>, e: Elm)
    requires e !in a && e !in b && NoDup(a + b)
    ensures Insert(a + b, e, FirstOf(b)) == a + [e] + b
  {
    var s := a + b;
    assert Find(s, e) == |s|;
    if b != [] {
      FirstNotIn(a, b);
      assert s == a + [b[0]] + b[1..];
      FindIn(a, b[0], b[1..]);
    }
    assert s[..|a|] == a && s[|a|..] == b;
  }

  lemma FirstNotIn(a: seq<Elm>, b: seq<Elm>)
    requires NoDup(a + b) && b != []
    ensures b[0] !in a
  {
    forall i | 0 <= i < |a| ensures a[i] != b[0] {
      assert (a + b)[i] == a[i] && (a + b)[|a|] == b[0];
    }
  }

  /** Moving an element from in front of m to in front of b. */
  lemma MoveRight(a: seq<Elm>, e: Elm, m: seq<Elm>, b: seq<Elm>)
    requires NoDup(a + [e] + m + b)
    ensures Insert(a + [e] + m + b, e, FirstOf(b)) == a + m + [e] + b
    ensures NoDup(a + m + [e] + b)
  {
    hide Insert, NoDup;
    RegroupBack(a, [e], m, b);
    RegroupBack(a, [], m, b);
    assert a + [] == a;
    Parts(a, e, m + b);
    LeaveAndInsert(a, e, m + b, a + m, b);
  }

  /** Taking e out of one place of a row and putting it at another. */
  lemma LeaveAndInsert(a: seq<Elm>, e: Elm, b: seq<Elm>, x: seq<Elm>, y: seq<Elm>)
    requires NoDup(a + b) && e !in a && e !in b && a + b == x + y
    ensures Insert(a + [e] + b, e, FirstOf(y)) == x + [e] + y && NoDup(x + [e] + y)
  {
    assert e !in x && e !in y by {
      assert e !in x + y;
      assert forall i :: 0 <= i < |x| ==> (x + y)[i] == x[i];
      assert forall i :: 0 <= i < |y| ==> (x + y)[|x| + i] == y[i];
    }
    WithoutIn(a, e, b);
    InsertFresh(x, y, e);
    WithoutNone(x + y, e);
    hide NoDup, Without;
  }

  lemma WithoutNone(s: seq<Elm>, e: Elm)
    requires e !in s
    ensures Without(s, e) == s
  {
  }

  /** Moving an element from in front of b to in front of m. */
  lemma MoveLeft(a: seq<Elm>, m: seq<Elm>, e: Elm, b: seq<Elm>)
    requires NoDup(a + m + [e] + b) && m != []
    ensures Insert(a + m + [e] + b, e, Some(m[0])) == a + [e] + m + b
    ensures NoDup(a + [e] + m + b)
  {
    hide Insert, NoDup;
    Parts(a + m, e, b);
    RegroupBack(a, [], m, b);
    RegroupBack(a, [e], m, b);
    assert a + [] == a && FirstOf(m + b) == Some(m[0]);
    LeaveAndInsert(a + m, e, b, a, m + b);
  }

  lemma Parts(a: seq<Elm>, e: Elm, b: seq<Elm>)
    requires NoDup(a + [e] + b)
    ensures e !in a && e !in b && NoDup(a + b)
  {
    var s := a + [e] + b;
    assert s[|a|] == e;
    assert forall i :: 0 <= i < |a| ==> s[i] == a[i];
    assert forall i :: 0 <= i < |b| ==> s[|a| + 1 + i] == b[i];
    var t := a + b;
    forall i, j | 0 <= i < j < |t| ensures t[i] != t[j] {
      assert t[i] == s[if i < |a| then i else i + 1] && t[j] == s[if j < |a| then j else j + 1];
    }
  }

  lemma InsertFresh(a: seq<Elm>, b: seq<Elm>, e: Elm)
    requires NoDup(a + b) && e !in a && e !in b
    ensures Insert(a + b, e, FirstOf(b)) == a + [e] + b
    ensures NoDup(a + [e] + b)
  {
    hide Insert, NoDup;
    InsertAt(a, b, e);
    NoDupWith(a, b, e);
  }

  lemma NoDupWith(a: seq<Elm>, b: seq<Elm>, e: Elm)
    requires NoDup(a + b) && e !in a && e !in b
    ensures NoDup(a + [e] + b)
  {
    var (s, t) := (a + b, a + [e] + b);
    var was := i => if i < |a| then i else i - 1;
    assert forall i :: 0 <= i < |t| && i != |a| ==> t[i] == s[was(i)];
    assert forall i :: 0 <= i < |s| ==> s[i] != e;
    assert t[|a|] == e;
    forall i, j | 0 <= i < j < |t| ensures t[i] != t[j] {
      if i != |a| && j != |a| {
        assert was(i) < was(j);
      }
    }
  }

  lemma AfterIn(a: seq<Elm>, e: Elm, b: seq<Elm>)
    requires NoDup(a + [e] + b)
    ensures After(a + [e] + b, e) == FirstOf(b)
  {
    Parts(a, e, b);
    FindIn(a, e, b);
  }

  // ---------- the state of the diff ----------

  /** Old children with their elements, and the new children. */
  datatype Input = Input(was: seq<VNode>, elm: seq<Elm>, nu: seq<VNode>)

  ghost predicate InputOk(c: Input) {
    |c.elm| == |c.was| && NoDup(c.elm) && KeysDistinct(c.was) && KeysDistinct(c.nu)
  }

  /**
   The four moving indices, the marks for old children set to undefined, the elements given to
   new children so far, and which old child each new child took (from) and the other way round
   (into), with -1 for none.
   */
  datatype Work = Work(os: int, oe: int, ns: int, ne: int, gone: seq<bool>, elms: seq<Option<Elm>>,
                       from: seq<int>, into: seq<int>)

  ghost predicate Bounds(c: Input, w: Work) {
    && 0 <= w.os <= w.oe + 1 <= |c.was| && 0 <= w.ns <= w.ne + 1 <= |c.nu|
    && |w.gone| == |w.into| == |c.was| == |c.elm| && |w.elms| == |w.from| == |c.nu|
  }

  /** New child i has its element. */
  predicate Done(w: Work, i: int) {
    i < w.ns || i > w.ne
  }

  /** Old child j is out of the window or undefined. */
  predicate Used(w: Work, j: nat)
    requires j < |w.gone|
  {
    j < w.os || j > w.oe || w.gone[j]
  }

  ghost predicate NoPartner(c: Input, i: nat)
    requires i < |c.nu|
  {
    forall j :: 0 <= j < |c.was| ==> !SameVnode(c.was[j], c.nu[i])
  }

  /** An old child is used exactly when a new child has taken its element. */
  ghost predicate OldOk(c: Input, w: Work, j: nat)
    requires Bounds(c, w) && j < |c.was|
  {
    && (Used(w, j) <==> w.into[j] >= 0)
    && (w.into[j] >= 0 ==> w.into[j] < |c.nu| && w.from[w.into[j]] == j)
  }

  /** A finished new child has the element of an old child it is the same node as, or a new element. */
  ghost predicate NewOk(c: Input, w: Work, base: Elm, i: nat)
    requires Bounds(c, w) && i < |c.nu|
  {
    if !Done(w, i) then w.from[i] < 0
    else if w.from[i] >= 0 then
      && w.from[i] < |c.was| && w.into[w.from[i]] == i && SameVnode(c.was[w.from[i]], c.nu[i])
      && w.elms[i] == Some(c.elm[w.from[i]])
    else
      && w.elms[i].Some? && w.elms[i].value >= base
      && (c.nu[i].key.Some? ==> NoPartner(c, i))
  }

  ghost predicate Matched(c: Input, w: Work, base: Elm) {
    && Bounds(c, w)
    && (forall j: nat :: j < |c.was| ==> OldOk(c, w, j))
    && (forall i: nat :: i < |c.nu| ==> NewOk(c, w, base, i))
  }

  /** One pairing of old child j with new child i. */
  ghost predicate Pairs(c: Input, w: Work, w': Work, j: nat, i: nat) {
    && Bounds(c, w) && Bounds(c, w') && j < |c.was| && i < |c.nu|
    && !Used(w, j) && !Done(w, i) && SameVnode(c.was[j], c.nu[i])
    && (forall j': nat :: j' < |c.was| ==> (Used(w', j') <==> Used(w, j') || j' == j))
    && (forall i': nat :: i' < |c.nu| ==> (Done(w', i') <==> Done(w, i') || i' == i))
    && |c.elm| == |c.was| && w'.elms == w.elms[i := Some(c.elm[j])]
    && w'.from == w.from[i := j] && w'.into == w.into[j := i]
  }

  lemma PairKeeps(c: Input, w: Work, w': Work, base: Elm, j: nat, i: nat)
    requires Matched(c, w, base) && Pairs(c, w, w', j, i)
    ensures Matched(c, w', base)
  {
    hide SameVnode, NoPartner;
    forall j': nat | j' < |c.was| ensures OldOk(c, w', j') {
      assert OldOk(c, w, j') && OldOk(c, w, j) && NewOk(c, w, base, i);
    }
    forall i': nat | i' < |c.nu| ensures NewOk(c, w', base, i') {
      assert NewOk(c, w, base, i') && OldOk(c, w, j);
    }
  }

  /** New child i gets a new element. */
  ghost predicate Creates(c: Input, w: Work, w': Work, i: nat, e: Elm) {
    && Bounds(c, w) && Bounds(c, w') && i < |c.nu| && !Done(w, i)
    && (forall j': nat :: j' < |c.was| ==> (Used(w', j') <==> Used(w, j')))
    && (forall i': nat :: i' < |c.nu| ==> (Done(w', i') <==> Done(w, i') || i' == i))
    && w'.elms == w.elms[i := Some(e)] && w'.from == w.from && w'.into == w.into
  }

  lemma CreateKeeps(c: Input, w: Work, w': Work, base: Elm, i: nat, e: Elm)
    requires Matched(c, w, base) && Creates(c, w, w', i, e) && e >= base
    requires c.nu[i].key.Some? ==> NoPartner(c, i)
    ensures Matched(c, w', base)
  {
    hide SameVnode, NoPartner;
    forall j': nat | j' < |c.was| ensures OldOk(c, w', j') {
      assert OldOk(c, w, j');
    }
    forall i': nat | i' < |c.nu| ensures NewOk(c, w', base, i') {
      assert NewOk(c, w, base, i');
    }
  }

  /** A key that a pending new child shares with an old child belongs to an old child still in play. */
  lemma StillInPlay(c: Input, w: Work, base: Elm, j: nat, i: nat)
    requires InputOk(c) && Matched(c, w, base) && j < |c.was| && i < |c.nu| && !Done(w, i)
    requires c.nu[i].key.Some? && c.was[j].key == c.nu[i].key
    ensures !Used(w, j)
  {
    if Used(w, j) {
      TakenBy(c, w, base, j);
    }
  }

  lemma TakenBy(c: Input, w: Work, base: Elm, j: nat)
    requires Matched(c, w, base) && j < |c.was| && Used(w, j)
    ensures 0 <= w.into[j] < |c.nu| && Done(w, w.into[j]) && SameVnode(c.was[j], c.nu[w.into[j]])
  {
    assert OldOk(c, w, j) && NewOk(c, w, base, w.into[j]);
  }

  // ---------- the key map ----------

  /** No later old child of the window has the same key. */
  ghost predicate LastWith(c: Input, n: nat, hi: int)
    requires n < |c.was|
  {
    forall j :: n < j < hi && j < |c.was| ==> c.was[j].key != c.was[n].key
  }

  /** createKeyToOldIdx over the old children lo..hi: exactly their keys, each with its last child. */
  ghost predicate KeyMapOk(c: Input, m: map<string, nat>, lo: int, hi: int) {
    && (forall k <- m :: lo <= m[k] < hi && m[k] < |c.was| && c.was[m[k]].key == Some(k) && LastWith(c, m[k], hi))
    && (forall j :: 0 <= lo <= j < hi && j < |c.was| && c.was[j].key.Some? ==> c.was[j].key.value in m)
  }

  method CreateKeyToOldIdx(c: Input, beginIdx: nat, endIdx: int) returns (m: map<string, nat>)
    requires endIdx < |c.was|
    ensures KeyMapOk(c, m, beginIdx, endIdx + 1)
  {
    m := map[];
    var i := beginIdx;
    while i <= endIdx
      invariant KeyMapOk(c, m, beginIdx, i) && (i <= endIdx + 1 || m == map[])
      decreases endIdx - i
    {
      if c.was[i].key.Some? {
        m := m[c.was[i].key.value := i];
      }
      i := i + 1;
    }
  }

  /** With the map built over a window around the present one, a failed lookup means there is no partner. */
  lemma LookupMiss(c: Input, w: Work, base: Elm, m: map<string, nat>, lo: int, hi: int, i: nat)
    requires InputOk(c) && Matched(c, w, base) && KeyMapOk(c, m, lo, hi) && 0 <= lo <= w.os && w.oe < hi
    requires i < |c.nu| && !Done(w, i) && c.nu[i].key.Some?
    requires c.nu[i].key.value in m ==> !SameVnode(c.was[m[c.nu[i].key.value]], c.nu[i])
    ensures NoPartner(c, i)
  {
    forall j | 0 <= j < |c.was| ensures !SameVnode(c.was[j], c.nu[i]) {
      if SameVnode(c.was[j], c.nu[i]) {
        StillInPlay(c, w, base, j, i);
      }
    }
  }

  // ---------- the child list during the diff ----------

  /** Elements of the old children lo..hi that are not marked. */
  function Window(elm: seq<Elm>, gone: seq<bool>, lo: nat, hi: nat): seq<Elm>
    requires lo <= hi <= |elm| == |gone|
    decreases hi - lo
  {
    if lo == hi then [] else (if gone[lo] then [] else [elm[lo]]) + Window(elm, gone, lo + 1, hi)
  }

  lemma {:induction false} WindowSplit(elm: seq<Elm>, gone: seq<bool>, lo: nat, mid: nat, hi: nat)
    requires lo <= mid <= hi <= |elm| == |gone|
    ensures Window(elm, gone, lo, hi) == Window(elm, gone, lo, mid) + Window(elm, gone, mid, hi)
    decreases mid - lo
  {
    if lo < mid {
      WindowSplit(elm, gone, lo + 1, mid, hi);
    }
  }

  lemma WindowAt(elm: seq<Elm>, gone: seq<bool>, lo: nat, x: nat, hi: nat)
    requires lo <= x < hi <= |elm| == |gone| && !gone[x]
    ensures Window(elm, gone, lo, hi) == Window(elm, gone, lo, x) + [elm[x]] + Window(elm, gone, x + 1, hi)
  {
    WindowSplit(elm, gone, lo, x, hi);
    assert Window(elm, gone, x, hi) == [elm[x]] + Window(elm, gone, x + 1, hi);
  }

  lemma WindowLast(elm: seq<Elm>, gone: seq<bool>, lo: nat, hi: nat)
    requires lo < hi <= |elm| == |gone|
    ensures Window(elm, gone, lo, hi) == Window(elm, gone, lo, hi - 1) + (if gone[hi - 1] then [] else [elm[hi - 1]])
  {
    WindowSplit(elm, gone, lo, hi - 1, hi);
    assert Window(elm, gone, hi, hi) == [];
  }

  lemma {:induction false} WindowFrame(elm: seq<Elm>, gone: seq<bool>, gone': seq<bool>, lo: nat, hi: nat)
    requires lo <= hi <= |elm| == |gone| == |gone'|
    requires forall j :: lo <= j < hi ==> gone[j] == gone'[j]
    ensures Window(elm, gone, lo, hi) == Window(elm, gone', lo, hi)
    decreases hi - lo
  {
    if lo < hi {
      assert gone[lo] == gone'[lo];
      WindowFrame(elm, gone, gone', lo + 1, hi);
    }
  }

  lemma WindowMark(elm: seq<Elm>, gone: seq<bool>, lo: nat, x: nat, hi: nat)
    requires lo <= x < hi <= |elm| == |gone|
    ensures Window(elm, gone[x := true], lo, hi) == Window(elm, gone, lo, x) + Window(elm, gone, x + 1, hi)
  {
    var g := gone[x := true];
    WindowSplit(elm, g, lo, x, hi);
    WindowFrame(elm, gone, g, lo, x);
    WindowFrame(elm, gone, g, x + 1, hi);
  }

  function ValueOf(o: Option<Elm>): Elm {
    if o.Some? then o.value else 0
  }

  function Values(elms: seq<Option<Elm>>): (r: seq<Elm>)
    ensures |r| == |elms|
  {
    seq(|elms|, i requires 0 <= i < |elms| => ValueOf(elms[i]))
  }

  function Front(c: Input, w: Work): seq<Elm>
    requires Bounds(c, w)
  {
    Values(w.elms[..w.ns])
  }

  function Back(c: Input, w: Work): seq<Elm>
    requires Bounds(c, w)
  {
    Values(w.elms[w.ne + 1..])
  }

  function Middle(c: Input, w: Work): seq<Elm>
    requires Bounds(c, w)
  {
    Window(c.elm, w.gone, w.os, w.oe + 1)
  }

  /** The parent's children: finished new children, old children in play, finished new children. */
  ghost predicate Shape(c: Input, w: Work, dom: seq<Elm>, supply: Elm) {
    && Bounds(c, w) && dom == Front(c, w) + Middle(c, w) + Back(c, w)
    && NoDup(dom) && Below(dom, supply)
  }

  // ---------- the steps ----------

  function SkipStart(w: Work): Work { w.(os := w.os + 1) }
  function SkipEnd(w: Work): Work { w.(oe := w.oe - 1) }

  function Take(c: Input, w: Work, j: nat, i: nat): Work
    requires Bounds(c, w) && j < |c.was| && i < |c.nu|
  {
    w.(elms := w.elms[i := Some(c.elm[j])], from := w.from[i := j], into := w.into[j := i])
  }

  function TakeSS(c: Input, w: Work): Work
    requires Bounds(c, w) && w.os <= w.oe && w.ns <= w.ne
  {
    Take(c, w, w.os, w.ns).(os := w.os + 1, ns := w.ns + 1)
  }

  function TakeEE(c: Input, w: Work): Work
    requires Bounds(c, w) && w.os <= w.oe && w.ns <= w.ne
  {
    Take(c, w, w.oe, w.ne).(oe := w.oe - 1, ne := w.ne - 1)
  }

  function TakeSE(c: Input, w: Work): Work
    requires Bounds(c, w) && w.os <= w.oe && w.ns <= w.ne
  {
    Take(c, w, w.os, w.ne).(os := w.os + 1, ne := w.ne - 1)
  }

  function TakeES(c: Input, w: Work): Work
    requires Bounds(c, w) && w.os <= w.oe && w.ns <= w.ne
  {
    Take(c, w, w.oe, w.ns).(oe := w.oe - 1, ns := w.ns + 1)
  }

  function TakeKeyed(c: Input, w: Work, x: nat): Work
    requires Bounds(c, w) && w.os <= w.oe && w.ns <= w.ne && x < |c.was|
  {
    Take(c, w, x, w.ns).(gone := w.gone[x := true], ns := w.ns + 1)
  }

  function Make(c: Input, w: Work, e: Elm): Work
    requires Bounds(c, w) && w.ns <= w.ne
  {
    w.(elms := w.elms[w.ns := Some(e)], ns := w.ns + 1)
  }

  lemma FrontGrows(c: Input, w: Work, e: Elm)
    requires Bounds(c, w) && w.ns <= w.ne
    ensures Values(w.elms[w.ns := Some(e)][..w.ns + 1]) == Front(c, w) + [e]
    ensures Values(w.elms[w.ns := Some(e)][w.ne + 1..]) == Back(c, w)
  {
  }

  lemma BackGrows(c: Input, w: Work, e: Elm)
    requires Bounds(c, w) && w.ns <= w.ne
    ensures Values(w.elms[w.ne := Some(e)][..w.ns]) == Front(c, w)
    ensures Values(w.elms[w.ne := Some(e)][w.ne..]) == [e] + Back(c, w)
  {
  }

  lemma SkipStartShape(c: Input, w: Work, dom: seq<Elm>, supply: Elm)
    requires Shape(c, w, dom, supply) && w.os <= w.oe && w.gone[w.os]
    ensures Shape(c, SkipStart(w), dom, supply)
  {
    assert Middle(c, w) == [] + Middle(c, SkipStart(w));
  }

  lemma SkipEndShape(c: Input, w: Work, dom: seq<Elm>, supply: Elm)
    requires Shape(c, w, dom, supply) && w.os <= w.oe && w.gone[w.oe]
    ensures Shape(c, SkipEnd(w), dom, supply)
  {
    WindowLast(c.elm, w.gone, w.os, w.oe + 1);
  }

  lemma TakeSSShape(c: Input, w: Work, dom: seq<Elm>, supply: Elm)
    requires Shape(c, w, dom, supply) && w.os <= w.oe && w.ns <= w.ne && !w.gone[w.os]
    ensures Shape(c, TakeSS(c, w), dom, supply)
  {
    FrontGrows(c, w, c.elm[w.os]);
    assert Middle(c, w) == [c.elm[w.os]] + Middle(c, TakeSS(c, w));
  }

  lemma TakeEEShape(c: Input, w: Work, dom: seq<Elm>, supply: Elm)
    requires Shape(c, w, dom, supply) && w.os <= w.oe && w.ns <= w.ne && !w.gone[w.oe]
    ensures Shape(c, TakeEE(c, w), dom, supply)
  {
    BackGrows(c, w, c.elm[w.oe]);
    WindowLast(c.elm, w.gone, w.os, w.oe + 1);
  }

  /** Moving the first element in play, e, behind the last one, z. */
  lemma MoveToBack(f: seq<Elm>, e: Elm, m: seq<Elm>, p: seq<Elm>, z: Elm, b: seq<Elm>, dom: seq<Elm>, supply: Elm)
    requires [e] + m == p + [z] && dom == f + ([e] + m) + b && NoDup(dom) && Below(dom, supply)
    ensures Insert(dom, e, After(dom, z)) == f + m + ([e] + b)
    ensures NoDup(f + m + ([e] + b)) && Below(f + m + ([e] + b), supply)
  {
    Regroup(f, [e], m, b);
    RegroupLast(f, p, z, b);
    RegroupBack(f, m, [e], b);
    BelowParts(f, [e], m, b, supply);
    hide Insert, After, NoDup, Below;
    AfterIn(f + p, z, b);
    MoveRight(f, e, m, b);
  }

  lemma Regroup(f: seq<Elm>, x: seq<Elm>, y: seq<Elm>, b: seq<Elm>)
    ensures f + (x + y) + b == f + x + y + b
  {
  }

  lemma RegroupLast(f: seq<Elm>, p: seq<Elm>, z: Elm, b: seq<Elm>)
    ensures f + (p + [z]) + b == (f + p) + [z] + b
  {
  }

  lemma RegroupBack(f: seq<Elm>, x: seq<Elm>, y: seq<Elm>, b: seq<Elm>)
    ensures f + x + y + b == f + x + (y + b)
  {
  }

  lemma BelowParts(f: seq<Elm>, x: seq<Elm>, y: seq<Elm>, b: seq<Elm>, supply: Elm)
    ensures Below(f + x + y + b, supply) <==>
            Below(f, supply) && Below(x, supply) && Below(y, supply) && Below(b, supply)
    ensures Below(f + y + x + b, supply) <==>
            Below(f, supply) && Below(x, supply) && Below(y, supply) && Below(b, supply)
  {
    BelowCat(f, x, supply);
    BelowCat(f + x, y, supply);
    BelowCat(f + x + y, b, supply);
    BelowCat(f, y, supply);
    BelowCat(f + y, x, supply);
    BelowCat(f + y + x, b, supply);
  }

  lemma BelowCat(x: seq<Elm>, y: seq<Elm>, supply: Elm)
    ensures Below(x + y, supply) <==> Below(x, supply) && Below(y, supply)
  {
    assert forall i :: 0 <= i < |x| ==> (x + y)[i] == x[i];
    assert forall i :: 0 <= i < |y| ==> (x + y)[|x| + i] == y[i];
  }

  /** Moving the first old child in play behind the last one. */
  lemma TakeSEShape(c: Input, w: Work, dom: seq<Elm>, supply: Elm)
    requires Shape(c, w, dom, supply) && w.os <= w.oe && w.ns <= w.ne && !w.gone[w.os] && !w.gone[w.oe]
    ensures Shape(c, TakeSE(c, w), Insert(dom, c.elm[w.os], After(dom, c.elm[w.oe])), supply)
  {
    hide Insert, After, NoDup, Below, Values;
    var (e, z) := (c.elm[w.os], c.elm[w.oe]);
    var (m, p) := (Window(c.elm, w.gone, w.os + 1, w.oe + 1), Window(c.elm, w.gone, w.os, w.oe));
    BackGrows(c, w, e);
    WindowAt(c.elm, w.gone, w.os, w.oe, w.oe + 1);
    assert Middle(c, w) == [e] + m == p + [z];
    MoveToBack(Front(c, w), e, m, p, z, Back(c, w), dom, supply);
  }

  /** Moving an element in play, other than the first, to the front. */
  lemma MoveToFront(f: seq<Elm>, a: seq<Elm>, e: Elm, z: seq<Elm>, b: seq<Elm>, dom: seq<Elm>, supply: Elm)
    requires dom == f + (a + [e] + z) + b && NoDup(dom) && Below(dom, supply) && a != []
    ensures Insert(dom, e, Some(a[0])) == (f + [e]) + (a + z) + b
    ensures NoDup((f + [e]) + (a + z) + b) && Below((f + [e]) + (a + z) + b, supply)
  {
    RegroupMiddle(f, a, e, z, b);
    BelowParts(f, [e], a, z + b, supply);
    hide Insert, NoDup, Below;
    MoveLeft(f, a, e, z + b);
  }

  lemma RegroupMiddle(f: seq<Elm>, a: seq<Elm>, e: Elm, z: seq<Elm>, b: seq<Elm>)
    ensures f + (a + [e] + z) + b == f + a + [e] + (z + b)
    ensures f + [e] + a + (z + b) == (f + [e]) + (a + z) + b
  {
    var x := a + [e];
    assert f + (x + z) == (f + x) + z;
    assert ((f + x) + z) + b == (f + x) + (z + b);
    assert f + x == f + a + [e];
    assert (f + [e]) + (a + z) == (f + [e] + a) + z;
    assert ((f + [e] + a) + z) + b == (f + [e] + a) + (z + b);
  }

  lemma TakeESShape(c: Input, w: Work, dom: seq<Elm>, supply: Elm)
    requires Shape(c, w, dom, supply) && w.os < w.oe && w.ns <= w.ne && !w.gone[w.os] && !w.gone[w.oe]
    ensures Shape(c, TakeES(c, w), Insert(dom, c.elm[w.oe], Some(c.elm[w.os])), supply)
  {
    hide Insert, NoDup, Below, Values;
    var (e, a) := (c.elm[w.oe], Window(c.elm, w.gone, w.os, w.oe));
    FrontGrows(c, w, e);
    WindowAt(c.elm, w.gone, w.os, w.oe, w.oe + 1);
    assert Middle(c, w) == a + [e] + [] && a + [] == a;
    MoveToFront(Front(c, w), a, e, [], Back(c, w), dom, supply);
  }

  lemma TakeKeyedShape(c: Input, w: Work, x: nat, dom: seq<Elm>, supply: Elm)
    requires Shape(c, w, dom, supply) && w.os < x <= w.oe && w.ns <= w.ne && !w.gone[w.os] && !w.gone[x]
    ensures Shape(c, TakeKeyed(c, w, x), Insert(dom, c.elm[x], Some(c.elm[w.os])), supply)
  {
    hide Insert, NoDup, Below, Values;
    var e := c.elm[x];
    FrontGrows(c, w, e);
    WindowAt(c.elm, w.gone, w.os, x, w.oe + 1);
    WindowMark(c.elm, w.gone, w.os, x, w.oe + 1);
    var (a, z) := (Window(c.elm, w.gone, w.os, x), Window(c.elm, w.gone, x + 1, w.oe + 1));
    MoveToFront(Front(c, w), a, e, z, Back(c, w), dom, supply);
  }

  lemma Associate(a: seq<Elm>, b: seq<Elm>, c: seq<Elm>)
    ensures (a + b) + c == a + (b + c)
  {
  }

  /** The next element made is new to the row. */
  lemma FreshRow(f: seq<Elm>, r: seq<Elm>, supply: Elm)
    requires NoDup(f + r) && Below(f + r, supply)
    ensures Insert(f + r, supply, FirstOf(r)) == f + [supply] + r
    ensures NoDup(f + [supply] + r) && Below(f + [supply] + r, supply + 1)
  {
    hide Insert, NoDup, FirstOf;
    BelowCat(f, r, supply);
    InsertFresh(f, r, supply);
    BelowCat(f, [supply], supply + 1);
    BelowCat(f + [supply], r, supply + 1);
  }

  /** A new element goes in front of what follows the finished front. */
  lemma MakeShape(c: Input, w: Work, dom: seq<Elm>, supply: Elm, ref: Option<Elm>)
    requires Shape(c, w, dom, supply) && w.ns <= w.ne && ref == FirstOf(Middle(c, w) + Back(c, w))
    ensures Shape(c, Make(c, w, supply), Insert(dom, supply, ref), supply + 1)
  {
    hide Insert, NoDup, Values, Window, Below, FirstOf;
    FrontGrows(c, w, supply);
    var (f, m, b) := (Front(c, w), Middle(c, w), Back(c, w));
    Associate(f, m, b);
    FreshRow(f, m + b, supply);
    Associate(f + [supply], m, b);
  }

  // ---------- the steps keep the matching ----------

  lemma SkipKeeps(c: Input, w: Work, w': Work, base: Elm)
    requires Matched(c, w, base) && w.os <= w.oe
    requires (w' == SkipStart(w) && w.gone[w.os]) || (w' == SkipEnd(w) && w.gone[w.oe])
    ensures Matched(c, w', base)
  {
    hide SameVnode, NoPartner;
    forall j: nat | j < |c.was| ensures OldOk(c, w', j) {
      assert OldOk(c, w, j);
    }
    forall i: nat | i < |c.nu| ensures NewOk(c, w', base, i) {
      assert NewOk(c, w, base, i);
    }
  }

  lemma MakeKeeps(c: Input, w: Work, base: Elm, e: Elm)
    requires Matched(c, w, base) && w.ns <= w.ne && e >= base
    requires c.nu[w.ns].key.Some? ==> NoPartner(c, w.ns)
    ensures Matched(c, Make(c, w, e), base)
  {
    CreateKeeps(c, w, Make(c, w, e), base, w.ns, e);
  }

  /** With every old child used, a pending new child has no partner. */
  lemma AllUsed(c: Input, w: Work, base: Elm, i: nat)
    requires InputOk(c) && Matched(c, w, base) && w.os > w.oe && i < |c.nu| && !Done(w, i) && c.nu[i].key.Some?
    ensures NoPartner(c, i)
  {
    forall j | 0 <= j < |c.was| ensures !SameVnode(c.was[j], c.nu[i]) {
      if SameVnode(c.was[j], c.nu[i]) {
        StillInPlay(c, w, base, j, i);
      }
    }
  }

  // ---------- when the new list is a subsequence of the old one ----------

  /** The new children are keyed and, in order, the same nodes as the old children partner[0], partner[1], ... */
  ghost predicate IsSubsequence(c: Input, partner: seq<nat>) {
    && |partner| == |c.nu|
    && (forall i :: 0 <= i < |c.nu| ==>
                      partner[i] < |c.was| && c.nu[i].key.Some? && SameVnode(c.was[partner[i]], c.nu[i]))
    && (forall i, j :: 0 <= i < j < |partner| ==> partner[i] < partner[j])
  }

  ghost predicate OnTrack(c: Input, w: Work, partner: seq<nat>, i: nat)
    requires Bounds(c, w) && i < |c.nu| == |partner|
  {
    partner[i] < |c.was| && if Done(w, i) then w.from[i] == partner[i] else !Used(w, partner[i])
  }

  ghost predicate SubOk(c: Input, w: Work, partner: seq<nat>) {
    Bounds(c, w) && |partner| == |c.nu| && forall i: nat :: i < |c.nu| ==> OnTrack(c, w, partner, i)
  }

  lemma SubPair(c: Input, w: Work, w': Work, partner: seq<nat>, j: nat, i: nat)
    requires InputOk(c) && IsSubsequence(c, partner) && SubOk(c, w, partner) && Pairs(c, w, w', j, i)
    ensures SubOk(c, w', partner)
  {
    assert j == partner[i] by {
      assert SameVnode(c.was[partner[i]], c.nu[i]);
    }
    forall i': nat | i' < |c.nu| ensures OnTrack(c, w', partner, i') {
      assert OnTrack(c, w, partner, i');
    }
  }

  lemma SubSkip(c: Input, w: Work, w': Work, partner: seq<nat>)
    requires SubOk(c, w, partner) && w.os <= w.oe
    requires (w' == SkipStart(w) && w.gone[w.os]) || (w' == SkipEnd(w) && w.gone[w.oe])
    ensures SubOk(c, w', partner)
  {
    forall i: nat | i < |c.nu| ensures OnTrack(c, w', partner, i) {
      assert OnTrack(c, w, partner, i);
    }
  }

  lemma SubHasPartner(c: Input, partner: seq<nat>, i: nat)
    requires IsSubsequence(c, partner) && i < |c.nu|
    ensures c.nu[i].key.Some? && !NoPartner(c, i)
  {
    assert SameVnode(c.was[partner[i]], c.nu[i]);
  }

  lemma {:induction false} WindowAll(elm: seq<Elm>, gone: seq<bool>, lo: nat)
    requires lo <= |elm| == |gone| && forall j :: lo <= j < |elm| ==> !gone[j]
    ensures Window(elm, gone, lo, |elm|) == elm[lo..]
    decreases |elm| - lo
  {
    if lo < |elm| {
      WindowAll(elm, gone, lo + 1);
    }
  }

  function Picked(elm: seq<Elm>, ps: seq<nat>): seq<Elm>
    requires forall k :: 0 <= k < |ps| ==> ps[k] < |elm|
  {
    if ps == [] then [] else [elm[ps[0]]] + Picked(elm, ps[1..])
  }

  lemma {:induction false} PickedAt(elm: seq<Elm>, ps: seq<nat>, k: nat)
    requires (forall k :: 0 <= k < |ps| ==> ps[k] < |elm|) && k < |ps|
    ensures |Picked(elm, ps)| == |ps| && Picked(elm, ps)[k] == elm[ps[k]]
  {
    if |ps| > 1 {
      PickedAt(elm, ps[1..], if k > 0 then k - 1 else 0);
    }
  }

  /** Keeping exactly the children ps keeps them in that order. */
  lemma {:induction false} WindowPicked(elm: seq<Elm>, dead: seq<bool>, ps: seq<nat>, lo: nat)
    requires lo <= |elm| == |dead|
    requires forall i :: 0 <= i < |ps| ==> lo <= ps[i] < |elm| && !dead[ps[i]]
    requires forall i, j :: 0 <= i < j < |ps| ==> ps[i] < ps[j]
    requires forall j :: lo <= j < |elm| && !dead[j] ==> j in ps
    ensures Window(elm, dead, lo, |elm|) == Picked(elm, ps)
    decreases |elm| - lo
  {
    if lo == |elm| {
      assert ps == [];
    } else if dead[lo] {
      WindowPicked(elm, dead, ps, lo + 1);
    } else {
      assert lo in ps && lo <= ps[0];
      WindowPicked(elm, dead, ps[1..], lo + 1);
    }
  }

  // ---------- updateChildren ----------

  datatype DomOp = Inserted(e: Elm) | Removed(e: Elm)

  ghost predicate NoRemoval(log: seq<DomOp>) {
    forall i :: 0 <= i < |log| ==> log[i].Inserted?
  }

  /** The state before the first comparison. */
  function Start(c: Input): Work {
    Work(0, |c.was| - 1, 0, |c.nu| - 1, seq(|c.was|, j => false), seq(|c.nu|, i => None), seq(|c.nu|, i => -1),
        seq(|c.was|, j => -1))
  }

  lemma StartOk(c: Input, base: Elm)
    requires InputOk(c) && Below(c.elm, base)
    ensures Matched(c, Start(c), base) && Shape(c, Start(c), c.elm, base)
  {
    WindowAll(c.elm, Start(c).gone, 0);
  }

  lemma SubStart(c: Input, partner: seq<nat>)
    requires InputOk(c) && IsSubsequence(c, partner)
    ensures SubOk(c, Start(c), partner)
  {
  }

  /** New child i kept an old element only as its sameVnode partner; a keyed one with a partner kept it. */
  ghost predicate Kept(c: Input, elms: seq<Elm>, base: Elm, i: nat)
    requires i < |c.nu| == |elms| && |c.elm| == |c.was|
  {
    && (elms[i] >= base || exists j :: 0 <= j < |c.was| && elms[i] == c.elm[j] && SameVnode(c.was[j], c.nu[i]))
    && (c.nu[i].key.Some? ==> forall j :: 0 <= j < |c.was| && SameVnode(c.was[j], c.nu[i]) ==> elms[i] == c.elm[j])
  }

  lemma MatchedKept(c: Input, w: Work, base: Elm, i: nat)
    requires InputOk(c) && Matched(c, w, base) && w.ns > w.ne && i < |c.nu|
    ensures Kept(c, Values(w.elms), base, i)
  {
    assert NewOk(c, w, base, i);
    var e := Values(w.elms)[i];
    if w.from[i] >= 0 {
      assert e == c.elm[w.from[i]];
    }
  }

  /** The old element is removed: it was in play when the new children ran out. */
  lemma LeftOver(c: Input, w: Work, base: Elm, j: nat)
    requires InputOk(c) && Below(c.elm, base) && Matched(c, w, base) && w.ns > w.ne && j < |c.was|
    ensures c.elm[j] in Values(w.elms) <==> Used(w, j)
  {
    assert OldOk(c, w, j);
    var v := Values(w.elms);
    if Used(w, j) {
      assert NewOk(c, w, base, w.into[j]);
      assert v[w.into[j]] == c.elm[j];
    } else {
      forall i | 0 <= i < |v| ensures v[i] != c.elm[j] {
        assert NewOk(c, w, base, i);
        if w.from[i] >= 0 {
          assert OldOk(c, w, w.from[i]);
        }
      }
    }
  }

  class Parent {
    var children: seq<Elm>
    /** The next element createElm makes. */
    var supply: Elm
    ghost var log: seq<DomOp>

    method InsertBefore(e: Elm, ref: Option<Elm>)
      modifies this`children, this`log
      ensures children == Insert(old(children), e, ref) && log == old(log) + [Inserted(e)]
      ensures NoDup(old(children)) ==> Stands(old(children), children, e, ref)
    {
      hide Insert, NoDup, Stands;
      if NoDup(children) {
        InsertStands(children, e, ref);
      }
      children := Insert(children, e, ref);
      log := log + [Inserted(e)];
    }

    method CreateElm(ref: Option<Elm>) returns (e: Elm)
      modifies this
      ensures e == old(supply) && supply == e + 1
      ensures children == Insert(old(children), e, ref) && log == old(log) + [Inserted(e)]
      ensures NoDup(old(children)) ==> Stands(old(children), children, e, ref)
    {
      e := supply;
      supply := supply + 1;
      InsertBefore(e, ref);
    }

    method RemoveChild(e: Elm)
      modifies this`children, this`log
      ensures children == Without(old(children), e) && log == old(log) + [Removed(e)]
      ensures NoDup(old(children)) ==> Leaves(old(children), children, e)
    {
      hide Without, NoDup, Leaves;
      if NoDup(children) {
        WithoutLeaves(children, e);
      }
      children := Without(children, e);
      log := log + [Removed(e)];
    }

    /**
     updateChildren.  The key map is built at the first miss and never again.  partner is for the
     case of removeOnly with the new list a subsequence of the old one.
     */
    method UpdateChildren(c: Input, removeOnly: bool, ghost partner: seq<nat>) returns (elms: seq<Elm>)
      requires InputOk(c) && children == c.elm && Below(c.elm, supply) && log == []
      modifies this
      ensures |elms| == |c.nu| && forall i: nat :: i < |c.nu| ==> Kept(c, elms, old(supply), i)
      ensures !removeOnly ==> children == elms && NoDup(elms)
      ensures removeOnly && IsSubsequence(c, partner) ==>
                children == elms && forall i :: 0 <= i < |log| ==> log[i].Removed?
      ensures forall j :: 0 <= j < |c.elm| ==> (Removed(c.elm[j]) in log <==> c.elm[j] !in elms)
    {
      hide Matched, Shape, SubOk, IsSubsequence, SameVnode, Insert, After, Without, NoRemoval, InputOk, Below, NoDup,
           KeyMapOk, NoPartner, Values, Kept;
      ghost var base := supply;
      var canMove := !removeOnly;
      var w := Start(c);
      var oldKeyToIdx: Option<map<string, nat>> := None;
      ghost var (lo, hi) := (0, |c.was|);
      GoStart(c, base, removeOnly, partner);
      while w.os <= w.oe && w.ns <= w.ne
        invariant Going(c, w, base, removeOnly, partner, children, supply, log)
        invariant oldKeyToIdx.Some? ==> KeyMapOk(c, oldKeyToIdx.value, lo, hi) && 0 <= lo <= w.os && w.oe < hi
        decreases w.oe - w.os + w.ne - w.ns
      {
        if w.gone[w.os] {
          GoSkip(c, w, SkipStart(w), base, removeOnly, partner, children, supply, log);
          w := SkipStart(w);
        } else if w.gone[w.oe] {
          GoSkip(c, w, SkipEnd(w), base, removeOnly, partner, children, supply, log);
          w := SkipEnd(w);
        } else if SameVnode(c.was[w.os], c.nu[w.ns]) {
          GoSS(c, w, base, removeOnly, partner, children, supply, log);
          w := TakeSS(c, w);
        } else if SameVnode(c.was[w.oe], c.nu[w.ne]) {
          GoEE(c, w, base, removeOnly, partner, children, supply, log);
          w := TakeEE(c, w);
        } else if SameVnode(c.was[w.os], c.nu[w.ne]) {
          GoSE(c, w, base, removeOnly, partner, children, supply, log);
          if canMove {
            InsertBefore(c.elm[w.os], After(children, c.elm[w.oe]));
          }
          w := TakeSE(c, w);
        } else if SameVnode(c.was[w.oe], c.nu[w.ns]) {
          GoES(c, w, base, removeOnly, partner, children, supply, log);
          if canMove {
            InsertBefore(c.elm[w.oe], Some(c.elm[w.os]));
          }
          w := TakeES(c, w);
        } else {
          if oldKeyToIdx.None? {
            var m := CreateKeyToOldIdx(c, w.os, w.oe);
            oldKeyToIdx := Some(m);
            lo, hi := w.os, w.oe + 1;
          }
          var key := c.nu[w.ns].key;
          if key.Some? && key.value in oldKeyToIdx.value {
            var x := oldKeyToIdx.value[key.value];
            GoFound(c, w, base, oldKeyToIdx.value, lo, hi, removeOnly, partner, children, supply, log);
            if SameVnode(c.was[x], c.nu[w.ns]) {
              GoKeyed(c, w, x, base, removeOnly, partner, children, supply, log);
              if canMove {
                InsertBefore(c.elm[x], Some(c.elm[w.os]));
              }
              w := TakeKeyed(c, w, x);
              continue;
            }
          }
          GoMake(c, w, base, oldKeyToIdx.value, lo, hi, removeOnly, partner, children, supply, log);
          var e := CreateElm(Some(c.elm[w.os]));
          w := Make(c, w, e);
        }
      }
      if w.os > w.oe {
        var refElm := if w.ne + 1 < |c.nu| then Some(ValueOf(w.elms[w.ne + 1])) else None;
        w := AddVnodes(c, w, refElm, base, removeOnly, partner);
        AllOldUsed(c, w, log);
      } else {
        RemoveVnodes(c, w, base, removeOnly, partner);
      }
      elms := Values(w.elms);
      Finish(c, w, base, log);
    }

    /** addVnodes over the pending new children, when no old child is left in play. */
    method AddVnodes(c: Input, w: Work, refElm: Option<Elm>, ghost base: Elm, ghost removeOnly: bool,
                     ghost partner: seq<nat>)
      returns (w': Work)
      requires InputOk(c) && Going(c, w, base, removeOnly, partner, children, supply, log) && w.os > w.oe
      requires refElm == if w.ne + 1 < |c.nu| then Some(ValueOf(w.elms[w.ne + 1])) else None
      modifies this
      ensures Bounds(c, w') && w'.os > w'.oe && w'.ns > w'.ne && Matched(c, w', base) && NoRemoval(log)
      ensures !removeOnly ==> children == Values(w'.elms) && NoDup(children)
      ensures removeOnly && IsSubsequence(c, partner) ==> log == [] && children == c.elm && children == Values(w'.elms)
    {
      hide Matched, Shape, SubOk, IsSubsequence, SameVnode, Insert, NoRemoval, InputOk, NoDup, NoPartner, Values;
      hide ValueOf;
      w' := w;
      while w'.ns <= w'.ne
        invariant Going(c, w', base, removeOnly, partner, children, supply, log)
        invariant w'.os > w'.oe && w'.ne == w.ne
        invariant refElm == if w'.ne + 1 < |c.nu| then Some(ValueOf(w'.elms[w'.ne + 1])) else None
        decreases w'.ne - w'.ns
      {
        GoAdd(c, w', base, removeOnly, partner, children, supply, log, refElm);
        var e := CreateElm(refElm);
        w' := Make(c, w', e);
      }
      GoAdded(c, w', base, removeOnly, partner, children, supply, log);
    }

    /** removeVnodes over the old children left in play, when no new child is pending. */
    method RemoveVnodes(c: Input, w: Work, ghost base: Elm, ghost removeOnly: bool, ghost partner: seq<nat>)
      requires InputOk(c) && Going(c, w, base, removeOnly, partner, children, supply, log) && w.ns > w.ne
      modifies this`children, this`log
      ensures !removeOnly ==> children == Values(w.elms) && NoDup(children)
      ensures removeOnly && IsSubsequence(c, partner) ==> children == Values(w.elms) && OnlyRemovals(log)
      ensures LogOk(c, w, log, |c.was|)
    {
      hide Matched, Shape, SubOk, IsSubsequence, SameVnode, NoRemoval, InputOk, NoDup, Values, Trimmed, Thinned, LogOk,
           OnlyRemovals, Without;
      GoTrim(c, w, base, removeOnly, partner, children, supply, log);
      for k := w.os to w.oe + 1
        invariant !removeOnly ==> Trimmed(c, w, k, children)
        invariant removeOnly && IsSubsequence(c, partner) ==> Thinned(c, w, k, children) && OnlyRemovals(log)
        invariant LogOk(c, w, log, k)
      {
        TrimStep(c, w, k, removeOnly, partner, children, log);
        if !w.gone[k] {
          RemoveChild(c.elm[k]);
        }
      }
      Trimmedly(c, w, base, removeOnly, partner, children, log);
    }
  }

  // ---------- the two ends of the diff ----------

  ghost predicate OnlyRemovals(log: seq<DomOp>) {
    forall i :: 0 <= i < |log| ==> log[i].Removed?
  }

  /** The removals logged are those of the old children in play before k. */
  ghost predicate LogOk(c: Input, w: Work, log: seq<DomOp>, k: int) {
    |c.elm| == |w.gone| && forall j :: 0 <= j < |c.elm| ==> (Removed(c.elm[j]) in log <==> j < k && !Used(w, j))
  }

  /** The child list when the old children in play before k are gone. */
  ghost predicate Trimmed(c: Input, w: Work, k: int, children: seq<Elm>) {
    && Bounds(c, w) && w.os <= k <= w.oe + 1
    && children == Front(c, w) + Window(c.elm, w.gone, k, w.oe + 1) + Back(c, w) && NoDup(children)
  }

  ghost function Dead(w: Work, k: int): seq<bool> {
    seq(|w.gone|, j requires 0 <= j < |w.gone| => j < k && !Used(w, j))
  }

  /** The same, for a child list in which nothing has been moved. */
  ghost predicate Thinned(c: Input, w: Work, k: int, children: seq<Elm>) {
    |c.elm| == |w.gone| && children == Window(c.elm, Dead(w, k), 0, |c.elm|)
  }

  lemma GoAdd(c: Input, w: Work, base: Elm, removeOnly: bool, partner: seq<nat>,
              children: seq<Elm>, supply: Elm, log: seq<DomOp>, ref: Option<Elm>)
    requires InputOk(c) && Going(c, w, base, removeOnly, partner, children, supply, log) && w.os > w.oe && w.ns <= w.ne
    requires ref == if w.ne + 1 < |c.nu| then Some(ValueOf(w.elms[w.ne + 1])) else None
    ensures Going(c, Make(c, w, supply), base, removeOnly, partner,
                  Insert(children, supply, ref), supply + 1, log + [Inserted(supply)])
  {
    hide Matched, Shape, SubOk, IsSubsequence, SameVnode, Insert, InputOk, NoPartner;
    if c.nu[w.ns].key.Some? {
      AllUsed(c, w, base, w.ns);
    }
    MakeKeeps(c, w, base, supply);
    if !removeOnly {
      MakeShape(c, w, children, supply, ref);
    } else if IsSubsequence(c, partner) {
      SubHasPartner(c, partner, w.ns);
    }
  }

  lemma GoAdded(c: Input, w: Work, base: Elm, removeOnly: bool, partner: seq<nat>,
                children: seq<Elm>, supply: Elm, log: seq<DomOp>)
    requires InputOk(c) && Going(c, w, base, removeOnly, partner, children, supply, log) && w.os > w.oe && w.ns > w.ne
    ensures !removeOnly ==> children == Values(w.elms) && NoDup(children)
    ensures removeOnly && IsSubsequence(c, partner) ==> children == Values(w.elms)
  {
    hide Matched, SubOk, IsSubsequence, InputOk, NoDup;
    if !removeOnly {
      WholeRow(c, w);
    } else if IsSubsequence(c, partner) {
      SubRow(c, w, base, partner);
      WindowAll(c.elm, Dead(w, |c.was|), 0);
    }
  }

  lemma WholeRow(c: Input, w: Work)
    requires Bounds(c, w) && w.ns > w.ne
    ensures Front(c, w) + [] + Back(c, w) == Values(w.elms)
  {
  }

  /** In the subsequence case the old children that are used are the partners, in order. */
  lemma SubRow(c: Input, w: Work, base: Elm, partner: seq<nat>)
    requires InputOk(c) && Matched(c, w, base) && SubOk(c, w, partner) && IsSubsequence(c, partner) && w.ns > w.ne
    ensures Window(c.elm, Dead(w, |c.was|), 0, |c.elm|) == Values(w.elms)
  {
    var dead := Dead(w, |c.was|);
    forall i | 0 <= i < |partner| ensures partner[i] < |c.elm| && !dead[partner[i]]
        && Values(w.elms)[i] == c.elm[partner[i]] {
      assert OnTrack(c, w, partner, i) && NewOk(c, w, base, i) && OldOk(c, w, partner[i]);
    }
    forall j | 0 <= j < |c.elm| && !dead[j] ensures j in partner {
      assert OldOk(c, w, j) && OnTrack(c, w, partner, w.into[j]);
    }
    WindowPicked(c.elm, dead, partner, 0);
    PickedRow(c.elm, partner, Values(w.elms));
  }

  lemma PickedRow(elm: seq<Elm>, ps: seq<nat>, row: seq<Elm>)
    requires |row| == |ps| && forall k :: 0 <= k < |ps| ==> ps[k] < |elm| && row[k] == elm[ps[k]]
    ensures Picked(elm, ps) == row
  {
    forall k | 0 <= k < |ps| ensures |Picked(elm, ps)| == |ps| && Picked(elm, ps)[k] == row[k] {
      PickedAt(elm, ps, k);
    }
  }

  lemma GoTrim(c: Input, w: Work, base: Elm, removeOnly: bool, partner: seq<nat>,
               children: seq<Elm>, supply: Elm, log: seq<DomOp>)
    requires InputOk(c) && Going(c, w, base, removeOnly, partner, children, supply, log)
    ensures !removeOnly ==> Trimmed(c, w, w.os, children)
    ensures removeOnly && IsSubsequence(c, partner) ==> Thinned(c, w, w.os, children) && OnlyRemovals(log)
    ensures LogOk(c, w, log, w.os)
  {
    hide Matched, SubOk, IsSubsequence;
    if removeOnly {
      WindowAll(c.elm, Dead(w, w.os), 0);
    }
  }

  /** One turn of the removal loop. */
  lemma TrimStep(c: Input, w: Work, k: int, removeOnly: bool, partner: seq<nat>, children: seq<Elm>, log: seq<DomOp>)
    requires InputOk(c) && Bounds(c, w) && w.os <= k <= w.oe
    requires !removeOnly ==> Trimmed(c, w, k, children)
    requires removeOnly && IsSubsequence(c, partner) ==> Thinned(c, w, k, children) && OnlyRemovals(log)
    requires LogOk(c, w, log, k)
    ensures w.gone[k] ==>
              && (!removeOnly ==> Trimmed(c, w, k + 1, children))
              && (removeOnly && IsSubsequence(c, partner) ==> Thinned(c, w, k + 1, children))
              && LogOk(c, w, log, k + 1)
    ensures !w.gone[k] ==>
              && (!removeOnly ==> Trimmed(c, w, k + 1, Without(children, c.elm[k])))
              && (removeOnly && IsSubsequence(c, partner) ==>
                    Thinned(c, w, k + 1, Without(children, c.elm[k])) && OnlyRemovals(log + [Removed(c.elm[k])]))
              && LogOk(c, w, log + [Removed(c.elm[k])], k + 1)
  {
    hide IsSubsequence, Without, Trimmed, Thinned;
    if !removeOnly {
      TrimmedStep(c, w, k, children);
    } else if IsSubsequence(c, partner) {
      ThinnedStep(c, w, k, children);
    }
  }

  lemma TrimmedStep(c: Input, w: Work, k: int, children: seq<Elm>)
    requires Trimmed(c, w, k, children) && k <= w.oe
    ensures Trimmed(c, w, k + 1, if w.gone[k] then children else Without(children, c.elm[k]))
  {
    hide Values, NoDup, Without;
    var (f, m, b) := (Front(c, w), Window(c.elm, w.gone, k + 1, w.oe + 1), Back(c, w));
    if !w.gone[k] {
      Regroup(f, [c.elm[k]], m, b);
      RegroupBack(f, [c.elm[k]], m, b);
      RegroupBack(f, [], m, b);
      assert f + [] == f;
      Parts(f, c.elm[k], m + b);
      WithoutIn(f, c.elm[k], m + b);
    } else {
      assert [] + m == m;
    }
  }

  lemma ThinnedStep(c: Input, w: Work, k: int, children: seq<Elm>)
    requires InputOk(c) && Bounds(c, w) && Thinned(c, w, k, children) && w.os <= k <= w.oe
    ensures Thinned(c, w, k + 1, if w.gone[k] then children else Without(children, c.elm[k]))
  {
    hide Without;
    var (d, n) := (Dead(w, k), |c.elm|);
    if w.gone[k] {
      assert Dead(w, k + 1) == d;
    } else {
      assert Dead(w, k + 1) == d[k := true];
      WindowAt(c.elm, d, 0, k, n);
      WindowMark(c.elm, d, 0, k, n);
      NotBefore(c.elm, d, 0, k);
      WithoutIn(Window(c.elm, d, 0, k), c.elm[k], Window(c.elm, d, k + 1, n));
    }
  }

  lemma {:induction false} NotBefore(elm: seq<Elm>, gone: seq<bool>, lo: nat, k: nat)
    requires NoDup(elm) && lo <= k < |elm| == |gone|
    ensures elm[k] !in Window(elm, gone, lo, k)
    decreases k - lo
  {
    if lo < k {
      NotBefore(elm, gone, lo + 1, k);
    }
  }

  lemma Trimmedly(c: Input, w: Work, base: Elm, removeOnly: bool, partner: seq<nat>, children: seq<Elm>,
                  log: seq<DomOp>)
    requires InputOk(c) && Matched(c, w, base) && Bounds(c, w) && w.ns > w.ne
    requires !removeOnly ==> Trimmed(c, w, w.oe + 1, children)
    requires removeOnly && IsSubsequence(c, partner) ==> SubOk(c, w, partner) && Thinned(c, w, w.oe + 1, children)
    requires LogOk(c, w, log, w.oe + 1)
    ensures !removeOnly ==> children == Values(w.elms) && NoDup(children)
    ensures removeOnly && IsSubsequence(c, partner) ==> children == Values(w.elms)
    ensures LogOk(c, w, log, |c.was|)
  {
    hide Matched, SubOk, IsSubsequence, NoDup, InputOk;
    if !removeOnly {
      WholeRow(c, w);
      assert Window(c.elm, w.gone, w.oe + 1, w.oe + 1) == [];
    } else if IsSubsequence(c, partner) {
      assert Dead(w, w.oe + 1) == Dead(w, |c.was|);
      SubRow(c, w, base, partner);
    }
  }

  lemma AllOldUsed(c: Input, w: Work, log: seq<DomOp>)
    requires Bounds(c, w) && w.os > w.oe && NoRemoval(log)
    ensures LogOk(c, w, log, |c.was|)
  {
  }

  lemma Finish(c: Input, w: Work, base: Elm, log: seq<DomOp>)
    requires InputOk(c) && Below(c.elm, base) && Bounds(c, w) && Matched(c, w, base) && w.ns > w.ne
    requires LogOk(c, w, log, |c.was|)
    ensures forall i: nat :: i < |c.nu| ==> Kept(c, Values(w.elms), base, i)
    ensures forall j :: 0 <= j < |c.elm| ==> (Removed(c.elm[j]) in log <==> c.elm[j] !in Values(w.elms))
  {
    hide Matched, InputOk, Below, Kept, Values;
    forall i: nat | i < |c.nu| ensures Kept(c, Values(w.elms), base, i) {
      MatchedKept(c, w, base, i);
    }
    forall j | 0 <= j < |c.elm| ensures Removed(c.elm[j]) in log <==> c.elm[j] !in Values(w.elms) {
      LeftOver(c, w, base, j);
    }
  }

  // ---------- what holds before every comparison ----------

  ghost predicate Going(c: Input, w: Work, base: Elm, removeOnly: bool, partner: seq<nat>,
                        children: seq<Elm>, supply: Elm, log: seq<DomOp>) {
    && Bounds(c, w) && Matched(c, w, base) && base <= supply
    && (!removeOnly ==> Shape(c, w, children, supply))
    && (removeOnly && IsSubsequence(c, partner) ==> SubOk(c, w, partner) && children == c.elm && log == [])
    && NoRemoval(log)
  }

  lemma GoStart(c: Input, base: Elm, removeOnly: bool, partner: seq<nat>)
    requires InputOk(c) && Below(c.elm, base)
    ensures Going(c, Start(c), base, removeOnly, partner, c.elm, base, [])
  {
    hide SubOk, Shape, Matched;
    StartOk(c, base);
    if IsSubsequence(c, partner) {
      SubStart(c, partner);
    }
  }

  lemma GoSkip(c: Input, w: Work, w': Work, base: Elm, removeOnly: bool, partner: seq<nat>,
               children: seq<Elm>, supply: Elm, log: seq<DomOp>)
    requires Going(c, w, base, removeOnly, partner, children, supply, log) && w.os <= w.oe
    requires (w' == SkipStart(w) && w.gone[w.os]) || (w' == SkipEnd(w) && w.gone[w.oe])
    ensures Going(c, w', base, removeOnly, partner, children, supply, log)
  {
    hide Matched, Shape, SubOk, IsSubsequence;
    SkipKeeps(c, w, w', base);
    if !removeOnly {
      if w' == SkipStart(w) && w.gone[w.os] {
        SkipStartShape(c, w, children, supply);
      } else {
        SkipEndShape(c, w, children, supply);
      }
    } else if IsSubsequence(c, partner) {
      SubSkip(c, w, w', partner);
    }
  }

  /** Pairing old child j with new child i, with or without a move, keeps everything. */
  lemma GoPair(c: Input, w: Work, w': Work, j: nat, i: nat, base: Elm, removeOnly: bool, partner: seq<nat>,
               children: seq<Elm>, supply: Elm, log: seq<DomOp>, children': seq<Elm>, log': seq<DomOp>)
    requires InputOk(c) && Going(c, w, base, removeOnly, partner, children, supply, log) && Pairs(c, w, w', j, i)
    requires !removeOnly ==> Shape(c, w', children', supply)
    requires removeOnly ==> children' == children && log' == log
    requires log' == log || exists e :: log' == log + [Inserted(e)]
    ensures Going(c, w', base, removeOnly, partner, children', supply, log')
  {
    hide Matched, Shape, SubOk, IsSubsequence;
    PairKeeps(c, w, w', base, j, i);
    if removeOnly && IsSubsequence(c, partner) {
      SubPair(c, w, w', partner, j, i);
    }
  }

  lemma GoSS(c: Input, w: Work, base: Elm, removeOnly: bool, partner: seq<nat>,
             children: seq<Elm>, supply: Elm, log: seq<DomOp>)
    requires InputOk(c) && Going(c, w, base, removeOnly, partner, children, supply, log)
    requires w.os <= w.oe && w.ns <= w.ne && !w.gone[w.os] && SameVnode(c.was[w.os], c.nu[w.ns])
    ensures Going(c, TakeSS(c, w), base, removeOnly, partner, children, supply, log)
  {
    hide Matched, Shape, SubOk, IsSubsequence, SameVnode;
    if !removeOnly {
      TakeSSShape(c, w, children, supply);
    }
    GoPair(c, w, TakeSS(c, w), w.os, w.ns, base, removeOnly, partner, children, supply, log, children, log);
  }

  lemma GoEE(c: Input, w: Work, base: Elm, removeOnly: bool, partner: seq<nat>,
             children: seq<Elm>, supply: Elm, log: seq<DomOp>)
    requires InputOk(c) && Going(c, w, base, removeOnly, partner, children, supply, log)
    requires w.os <= w.oe && w.ns <= w.ne && !w.gone[w.oe] && SameVnode(c.was[w.oe], c.nu[w.ne])
    ensures Going(c, TakeEE(c, w), base, removeOnly, partner, children, supply, log)
  {
    hide Matched, Shape, SubOk, IsSubsequence, SameVnode;
    if !removeOnly {
      TakeEEShape(c, w, children, supply);
    }
    GoPair(c, w, TakeEE(c, w), w.oe, w.ne, base, removeOnly, partner, children, supply, log, children, log);
  }

  /** The child list and the log after a move that is made unless removeOnly is set. */
  ghost predicate MovedTo(c: Input, w': Work, base: Elm, removeOnly: bool, partner: seq<nat>,
                          children: seq<Elm>, supply: Elm, log: seq<DomOp>, e: Elm, ref: Option<Elm>) {
    if removeOnly then Going(c, w', base, removeOnly, partner, children, supply, log)
    else Going(c, w', base, removeOnly, partner, Insert(children, e, ref), supply, log + [Inserted(e)])
  }

  lemma GoSE(c: Input, w: Work, base: Elm, removeOnly: bool, partner: seq<nat>,
             children: seq<Elm>, supply: Elm, log: seq<DomOp>)
    requires InputOk(c) && Going(c, w, base, removeOnly, partner, children, supply, log)
    requires w.os <= w.oe && w.ns <= w.ne && !w.gone[w.os] && !w.gone[w.oe] && SameVnode(c.was[w.os], c.nu[w.ne])
    ensures MovedTo(c, TakeSE(c, w), base, removeOnly, partner, children, supply, log, c.elm[w.os],
            After(children, c.elm[w.oe]))
  {
    hide Matched, Shape, SubOk, IsSubsequence, SameVnode, Insert, After;
    var e := c.elm[w.os];
    if removeOnly {
      GoPair(c, w, TakeSE(c, w), w.os, w.ne, base, removeOnly, partner, children, supply, log, children, log);
    } else {
      TakeSEShape(c, w, children, supply);
      GoPair(c, w, TakeSE(c, w), w.os, w.ne, base, removeOnly, partner, children, supply, log,
             Insert(children, e, After(children, c.elm[w.oe])), log + [Inserted(e)]);
    }
  }

  lemma GoES(c: Input, w: Work, base: Elm, removeOnly: bool, partner: seq<nat>,
             children: seq<Elm>, supply: Elm, log: seq<DomOp>)
    requires InputOk(c) && Going(c, w, base, removeOnly, partner, children, supply, log)
    requires w.os <= w.oe && w.ns <= w.ne && !w.gone[w.os] && !w.gone[w.oe]
    requires SameVnode(c.was[w.oe], c.nu[w.ns]) && !SameVnode(c.was[w.os], c.nu[w.ns])
    ensures MovedTo(c, TakeES(c, w), base, removeOnly, partner, children, supply, log, c.elm[w.oe], Some(c.elm[w.os]))
  {
    hide Matched, Shape, SubOk, IsSubsequence, SameVnode, Insert;
    var e := c.elm[w.oe];
    if removeOnly {
      GoPair(c, w, TakeES(c, w), w.oe, w.ns, base, removeOnly, partner, children, supply, log, children, log);
    } else {
      TakeESShape(c, w, children, supply);
      GoPair(c, w, TakeES(c, w), w.oe, w.ns, base, removeOnly, partner, children, supply, log,
             Insert(children, e, Some(c.elm[w.os])), log + [Inserted(e)]);
    }
  }

  /** An old child found by key is still in play, and is not the first one if it is the same node. */
  lemma GoFound(c: Input, w: Work, base: Elm, m: map<string, nat>, lo: int, hi: int, removeOnly: bool,
                partner: seq<nat>,
                children: seq<Elm>, supply: Elm, log: seq<DomOp>)
    requires InputOk(c) && Going(c, w, base, removeOnly, partner, children, supply, log)
    requires KeyMapOk(c, m, lo, hi) && w.os <= w.oe && w.ns <= w.ne
    requires c.nu[w.ns].key.Some? && c.nu[w.ns].key.value in m
    ensures m[c.nu[w.ns].key.value] < |c.was| && !Used(w, m[c.nu[w.ns].key.value])
  {
    hide Shape, SubOk, IsSubsequence;
    StillInPlay(c, w, base, m[c.nu[w.ns].key.value], w.ns);
  }

  lemma GoKeyed(c: Input, w: Work, x: nat, base: Elm, removeOnly: bool, partner: seq<nat>,
                children: seq<Elm>, supply: Elm, log: seq<DomOp>)
    requires InputOk(c) && Going(c, w, base, removeOnly, partner, children, supply, log)
    requires w.os <= w.oe && w.ns <= w.ne && !w.gone[w.os] && x < |c.was| && !Used(w, x)
    requires SameVnode(c.was[x], c.nu[w.ns]) && !SameVnode(c.was[w.os], c.nu[w.ns])
    ensures MovedTo(c, TakeKeyed(c, w, x), base, removeOnly, partner, children, supply, log, c.elm[x],
            Some(c.elm[w.os]))
  {
    hide Matched, Shape, SubOk, IsSubsequence, SameVnode, Insert;
    var e := c.elm[x];
    if removeOnly {
      GoPair(c, w, TakeKeyed(c, w, x), x, w.ns, base, removeOnly, partner, children, supply, log, children, log);
    } else {
      TakeKeyedShape(c, w, x, children, supply);
      GoPair(c, w, TakeKeyed(c, w, x), x, w.ns, base, removeOnly, partner, children, supply, log,
             Insert(children, e, Some(c.elm[w.os])), log + [Inserted(e)]);
    }
  }

  /** A missed lookup, or a hit on another node: the new child is created. */
  lemma GoMake(c: Input, w: Work, base: Elm, m: map<string, nat>, lo: int, hi: int, removeOnly: bool, partner: seq<nat>,
               children: seq<Elm>, supply: Elm, log: seq<DomOp>)
    requires InputOk(c) && Going(c, w, base, removeOnly, partner, children, supply, log)
    requires KeyMapOk(c, m, lo, hi) && 0 <= lo <= w.os && w.oe < hi
    requires w.os <= w.oe && w.ns <= w.ne && !w.gone[w.os]
    requires c.nu[w.ns].key.Some? && c.nu[w.ns].key.value in m ==>
               m[c.nu[w.ns].key.value] < |c.was| && !SameVnode(c.was[m[c.nu[w.ns].key.value]], c.nu[w.ns])
    ensures Going(c, Make(c, w, supply), base, removeOnly, partner,
                  Insert(children, supply, Some(c.elm[w.os])), supply + 1, log + [Inserted(supply)])
  {
    hide Matched, Shape, SubOk, IsSubsequence, SameVnode, Insert, InputOk, KeyMapOk, NoPartner;
    if c.nu[w.ns].key.Some? {
      LookupMiss(c, w, base, m, lo, hi, w.ns);
    }
    MakeKeeps(c, w, base, supply);
    if !removeOnly {
      FirstInPlay(c, w);
      MakeShape(c, w, children, supply, Some(c.elm[w.os]));
    } else if IsSubsequence(c, partner) {
      SubHasPartner(c, partner, w.ns);
    }
  }

  lemma FirstInPlay(c: Input, w: Work)
    requires Bounds(c, w) && w.os <= w.oe && !w.gone[w.os]
    ensures FirstOf(Middle(c, w) + Back(c, w)) == Some(c.elm[w.os])
  {
  }
}
