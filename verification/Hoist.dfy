/**
 Static hoisting in the template compiler of vue_stu/vue.js: the optimizer marks sub-trees of a
 template as static, code generation moves marked roots into their own render functions, and the
 runtime renders those once and reuses the tree.  Direct is what the template means; the project
 asks when rendering the hoisted code gives the same trees.  Templates have no v-once, no
 inline-template and no scoped slots.
 */
module Hoist {
  import opened Basics
  import Html


  // ---------- templates ----------

  /** The marks the optimizer leaves on an element; all absent after parsing. */
  datatype Marks = Marks(isStatic: bool, staticRoot: bool, staticInFor: bool)

  /**
   attrs stands for the static attributes, class and style; dynamic for the expressions of the bindings; others
   is true when the element has some further property outside the optimizer's list of static keys.  Expressions
   are numbered.  blocks are the v-else-if and v-else elements after an element with v-if.
   */
  datatype Node =
    | Text(text: string)
    | Interp(exp: nat)
    | Element(tag: string, attrs: string, pre: bool, dynamic: seq<nat>, others: bool, loop: Option<nat>,
              cond: Option<nat>, children: seq<Node>, blocks: Blocks, marks: Marks)

  datatype Blocks = NoMore | Block(exp: Option<nat>, node: Node, rest: Blocks)

  /** What the compiler is told of the platform: which tags are the platform's own. */
  type Platform = string -> bool

  /** isBuiltInTag, which does not look at case. */
  predicate BuiltIn(tag: string) {
    Html.LowerAll(tag) == "slot" || Html.LowerAll(tag) == "component"
  }

  // ---------- what a template means ----------

  /**
   A state of the component: the value of every expression, which may depend on the loop indices around it, and
   the content passed for the slot.
   */
  datatype World = World(text: (nat, seq<nat>) -> string, truth: (nat, seq<nat>) -> bool,
                         count: (nat, seq<nat>) -> nat, slot: Option<string>)

  /** A static key is the number of the render function, and the position in an array. */
  datatype StaticKey = StaticKey(index: nat, pos: Option<nat>)

  /** Static(k, v) is v with isStatic set and key k. */
  datatype VNode =
    | VText(text: string)
    | VEmpty
    | VSlot(content: string)
    | VElem(tag: string, attrs: string, pre: bool, data: seq<string>, children: seq<VNode>)
    | Static(key: StaticKey, node: VNode)

  function Values(w: World, exps: seq<nat>, st: seq<nat>): (v: seq<string>)
    ensures exps == [] ==> v == []
  {
    seq(|exps|, i requires 0 <= i < |exps| => w.text(exps[i], st))
  }

  function Direct(n: Node, w: World, st: seq<nat>): seq<VNode>
    decreases n, 4
  {
    match n
    case Text(t) => [VText(t)]
    case Interp(e) => [VText(w.text(e, st))]
    case Element(_, _, _, _, _, loop, _, _, _, _) =>
      if loop.Some? then DirectLoop(n, w, st, w.count(loop.value, st)) else DirectCond(n, w, st)
  }

  function DirectLoop(n: Node, w: World, st: seq<nat>, k: nat): seq<VNode>
    requires n.Element?
    decreases n, 3, k
  {
    if k == 0 then [] else DirectLoop(n, w, st, k - 1) + DirectCond(n, w, st + [k - 1])
  }

  function DirectCond(n: Node, w: World, st: seq<nat>): seq<VNode>
    requires n.Element?
    decreases n, 2
  {
    if n.cond.None? || w.truth(n.cond.value, st) then DirectTag(n, w, st) else DirectBlocks(n.blocks, w, st)
  }

  function DirectBlocks(bs: Blocks, w: World, st: seq<nat>): seq<VNode>
    decreases bs, 0
  {
    match bs
    case NoMore => [VEmpty]
    case Block(exp, node, rest) =>
      if exp.None? || w.truth(exp.value, st) then Direct(node, w, st) else DirectBlocks(rest, w, st)
  }

  function DirectTag(n: Node, w: World, st: seq<nat>): seq<VNode>
    requires n.Element?
    decreases n, 1
  {
    if n.tag == "template" then DirectAll(n.children, w, st)
    else if n.tag == "slot" then (if w.slot.Some? then [VSlot(w.slot.value)] else DirectAll(n.children, w, st))
    else [VElem(n.tag, n.attrs, n.pre, Values(w, n.dynamic, st), DirectAll(n.children, w, st))]
  }

  function DirectAll(ns: seq<Node>, w: World, st: seq<nat>): seq<VNode>
    decreases ns, 0
  {
    if ns == [] then [] else Direct(ns[0], w, st) + DirectAll(ns[1..], w, st)
  }

  // ---------- the optimizer ----------

  /** isStatic; inTF is isDirectChildOfTemplateFor. */
  predicate IsStatic(reserved: Platform, n: Node, inTF: bool) {
    match n
    case Text(_) => true
    case Interp(_) => false
    case Element(tag, _, pre, dynamic, others, loop, cond, _, _, _) =>
      pre || (dynamic == [] && cond.None? && loop.None? && !BuiltIn(tag) && reserved(tag) && !inTF && !others)
  }

  predicate IsMarked(n: Node) {
    n.Text? || (n.Element? && n.marks.isStatic)
  }

  predicate AllMarked(ns: seq<Node>) {
    forall i :: 0 <= i < |ns| ==> IsMarked(ns[i])
  }

  /** The optimizer does not look into a component's content. */
  predicate Closed(reserved: Platform, n: Node)
    requires n.Element?
  {
    !reserved(n.tag) && n.tag != "slot"
  }

  /** markStatic$1 */
  function MarkStatic(reserved: Platform, n: Node, inTF: bool): Node
    decreases n, 1
  {
    if !n.Element? then n
    else if Closed(reserved, n) then n.(marks := n.marks.(isStatic := IsStatic(reserved, n, inTF)))
    else
      var kids := MarkStaticAll(reserved, n.children, n.tag == "template" && (n.loop.Some? || inTF));
      n.(children := kids, marks := n.marks.(isStatic := IsStatic(reserved, n, inTF) && AllMarked(kids)))
  }

  function MarkStaticAll(reserved: Platform, ns: seq<Node>, inTF: bool): seq<Node>
    decreases ns, 0
  {
    if ns == [] then [] else [MarkStatic(reserved, ns[0], inTF)] + MarkStaticAll(reserved, ns[1..], inTF)
  }

  /** markStaticRoots */
  function MarkRoots(n: Node, inFor: bool): Node
    decreases n, 1
  {
    if !n.Element? then n
    else
      var marks := if n.marks.isStatic then n.marks.(staticInFor := inFor) else n.marks;
      if n.marks.isStatic && |n.children| > 0 && !(|n.children| == 1 && n.children[0].Text?) then
        n.(marks := marks.(staticRoot := true))
      else
        n.(marks := marks.(staticRoot := false), children := MarkRootsAll(n.children, inFor || n.loop.Some?),
           blocks := MarkRootsBlocks(n.blocks, inFor))
  }

  function MarkRootsAll(ns: seq<Node>, inFor: bool): seq<Node>
    decreases ns, 0
  {
    if ns == [] then [] else [MarkRoots(ns[0], inFor)] + MarkRootsAll(ns[1..], inFor)
  }

  function MarkRootsBlocks(bs: Blocks, inFor: bool): Blocks
    decreases bs, 0
  {
    match bs
    case NoMore => NoMore
    case Block(exp, node, rest) => Block(exp, MarkRoots(node, inFor), MarkRootsBlocks(rest, inFor))
  }

  function Optimize(reserved: Platform, root: Node): Node {
    MarkRoots(MarkStatic(reserved, root, false), false)
  }

  // ---------- code generation ----------

  /** Generated code; Tree(i, inFor) is _m(i, inFor). */
  datatype Code =
    | CText(text: string)
    | CInterp(exp: nat)
    | CElem(tag: string, attrs: string, pre: bool, dynamic: seq<nat>, children: seq<Code>)
    | CSlot(children: seq<Code>)
    | CList(children: seq<Code>)
    | CFor(exp: nat, body: Code)
    | CIf(exp: nat, yes: Code, no: Code)
    | CEmpty
    | Tree(index: nat, inFor: bool)

  /** Code, and the static render functions pushed on the way, the first of which has number `from`. */
  datatype Out<T> = Out(code: T, fns: seq<Code>)

  function Gen(el: Node, from: nat): Out<Code>
    decreases el, 5
  {
    match el
    case Text(t) => Out(CText(t), [])
    case Interp(e) => Out(CInterp(e), [])
    case Element(_, _, _, _, _, _, _, _, _, marks) =>
      var o := GenLoop(el, from);
      if marks.staticRoot then Out(Tree(from + |o.fns|, marks.staticInFor), o.fns + [o.code]) else o
  }

  function GenLoop(el: Node, from: nat): Out<Code>
    requires el.Element?
    decreases el, 4
  {
    var o := GenCond(el, from);
    if el.loop.Some? then Out(CFor(el.loop.value, o.code), o.fns) else o
  }

  function GenCond(el: Node, from: nat): Out<Code>
    requires el.Element?
    decreases el, 3
  {
    var o := GenTag(el, from);
    if el.cond.None? then o
    else var e := GenBlocks(el.blocks, from + |o.fns|); Out(CIf(el.cond.value, o.code, e.code), o.fns + e.fns)
  }

  function GenBlocks(bs: Blocks, from: nat): Out<Code>
    decreases bs, 0
  {
    match bs
    case NoMore => Out(CEmpty, [])
    case Block(exp, node, rest) =>
      var o := Gen(node, from);
      if exp.None? then o
      else var e := GenBlocks(rest, from + |o.fns|); Out(CIf(exp.value, o.code, e.code), o.fns + e.fns)
  }

  function GenTag(el: Node, from: nat): Out<Code>
    requires el.Element?
    decreases el, 2
  {
    var o := GenAll(el.children, from);
    if el.tag == "template" then Out(CList(o.code), o.fns)
    else if el.tag == "slot" then Out(CSlot(o.code), o.fns)
    else Out(CElem(el.tag, el.attrs, el.pre, el.dynamic, o.code), o.fns)
  }

  function GenAll(els: seq<Node>, from: nat): Out<seq<Code>>
    decreases els, 0
  {
    if els == [] then Out([], [])
    else
      var o := Gen(els[0], from);
      var r := GenAll(els[1..], from + |o.fns|);
      Out([o.code] + r.code, o.fns + r.fns)
  }

  // ---------- running generated code ----------

  type Trees = map<nat, seq<VNode>>

  datatype Res = Res(tree: seq<VNode>, trees: Trees)

  /** Every static tree the code uses has a number from lo on and below hi. */
  predicate Within(c: Code, lo: nat, hi: nat) {
    match c
    case CElem(_, _, _, _, children) => WithinAll(children, lo, hi)
    case CSlot(children) => WithinAll(children, lo, hi)
    case CList(children) => WithinAll(children, lo, hi)
    case CFor(_, body) => Within(body, lo, hi)
    case CIf(_, yes, no) => Within(yes, lo, hi) && Within(no, lo, hi)
    case Tree(i, _) => lo <= i < hi
    case _ => true
  }

  predicate WithinAll(cs: seq<Code>, lo: nat, hi: nat) {
    cs == [] || (Within(cs[0], lo, hi) && WithinAll(cs[1..], lo, hi))
  }

  /** A static render function uses only trees pushed before it. */
  predicate Layered(fns: seq<Code>) {
    forall i: nat :: i < |fns| ==> Within(fns[i], 0, i)
  }

  /** markStatic: an array has each of its nodes marked, a single node is marked itself. */
  function Stamp(i: nat, c: Code, tree: seq<VNode>): seq<VNode> {
    seq(|tree|, k requires 0 <= k < |tree| => Static(StaticKey(i, if c.CList? || c.CSlot? then Some(k) else None),
        tree[k]))
  }

  function Exec(c: Code, w: World, st: seq<nat>, fns: seq<Code>, lim: nat, trees: Trees): Res
    requires lim <= |fns| && Layered(fns) && Within(c, 0, lim)
    decreases lim, c, 0
  {
    match c
    case CText(t) => Res([VText(t)], trees)
    case CInterp(e) => Res([VText(w.text(e, st))], trees)
    case CElem(tag, attrs, pre, dynamic, children) =>
      var r := ExecAll(children, w, st, fns, lim, trees);
      Res([VElem(tag, attrs, pre, Values(w, dynamic, st), r.tree)], r.trees)
    case CSlot(children) =>
      var r := ExecAll(children, w, st, fns, lim, trees);
      if w.slot.Some? then Res([VSlot(w.slot.value)], r.trees) else r
    case CList(children) => ExecAll(children, w, st, fns, lim, trees)
    case CFor(exp, body) => ExecLoop(body, w, st, w.count(exp, st), fns, lim, trees)
    case CIf(exp, yes, no) =>
      if w.truth(exp, st) then Exec(yes, w, st, fns, lim, trees) else Exec(no, w, st, fns, lim, trees)
    case CEmpty => Res([VEmpty], trees)
    case Tree(i, inFor) =>
      if i in trees && !inFor then Res(trees[i], trees)
      else
        var r := Exec(fns[i], w, [], fns, i, trees);
        var tree := Stamp(i, fns[i], r.tree);
        Res(tree, r.trees[i := tree])
  }

  function ExecAll(cs: seq<Code>, w: World, st: seq<nat>, fns: seq<Code>, lim: nat, trees: Trees): Res
    requires lim <= |fns| && Layered(fns) && WithinAll(cs, 0, lim)
    decreases lim, cs, 0
  {
    if cs == [] then Res([], trees)
    else
      var r := Exec(cs[0], w, st, fns, lim, trees);
      var q := ExecAll(cs[1..], w, st, fns, lim, r.trees);
      Res(r.tree + q.tree, q.trees)
  }

  function ExecLoop(c: Code, w: World, st: seq<nat>, k: nat, fns: seq<Code>, lim: nat, trees: Trees): Res
    requires lim <= |fns| && Layered(fns) && Within(c, 0, lim)
    decreases lim, c, 1, k
  {
    if k == 0 then Res([], trees)
    else
      var r := ExecLoop(c, w, st, k - 1, fns, lim, trees);
      var q := Exec(c, w, st + [k - 1], fns, lim, r.trees);
      Res(r.tree + q.tree, q.trees)
  }

  /** A tree without the optimizer's marks. */
  function Erase(v: VNode): VNode {
    match v
    case Static(_, node) => Erase(node)
    case VElem(tag, attrs, pre, data, children) => VElem(tag, attrs, pre, data, EraseAll(children))
    case _ => v
  }

  function EraseAll(vs: seq<VNode>): (es: seq<VNode>)
    ensures |es| == |vs| && forall i :: 0 <= i < |vs| ==> es[i] == Erase(vs[i])
  {
    if vs == [] then [] else [Erase(vs[0])] + EraseAll(vs[1..])
  }

  lemma EraseAdd(a: seq<VNode>, b: seq<VNode>)
    ensures EraseAll(a + b) == EraseAll(a) + EraseAll(b)
  {
  }

  lemma EraseStamp(i: nat, c: Code, tree: seq<VNode>)
    ensures EraseAll(Stamp(i, c, tree)) == EraseAll(tree)
  {
  }

  // ---------- what the marks mean ----------

  /** Nothing in the sub-tree depends on an expression; slots are the only thing left that may change. */
  predicate Quiet(n: Node) {
    match n
    case Text(_) => true
    case Interp(_) => false
    case Element(_, _, _, dynamic, _, loop, cond, children, _, _) =>
      dynamic == [] && loop.None? && cond.None? && QuietAll(children)
  }

  predicate QuietAll(ns: seq<Node>) {
    ns == [] || (Quiet(ns[0]) && QuietAll(ns[1..]))
  }

  predicate HasSlot(n: Node) {
    n.Element? && (n.tag == "slot" || AnySlot(n.children))
  }

  predicate AnySlot(ns: seq<Node>) {
    ns != [] && (HasSlot(ns[0]) || AnySlot(ns[1..]))
  }

  /** The parser compiles nothing under v-pre: an element with v-pre is quiet. */
  predicate PreRaw(n: Node) {
    n.Element? ==> (n.pre ==> Quiet(n)) && PreRawAll(n.children) && PreRawBlocks(n.blocks)
  }

  predicate PreRawAll(ns: seq<Node>) {
    ns == [] || (PreRaw(ns[0]) && PreRawAll(ns[1..]))
  }

  predicate PreRawBlocks(bs: Blocks) {
    bs.Block? ==> PreRaw(bs.node) && PreRawBlocks(bs.rest)
  }

  /** No mark on any element, as the parser leaves them. */
  predicate Unmarked(n: Node) {
    n.Element? ==> n.marks == Marks(false, false, false) && UnmarkedAll(n.children) && UnmarkedBlocks(n.blocks)
  }

  predicate UnmarkedAll(ns: seq<Node>) {
    ns == [] || (Unmarked(ns[0]) && UnmarkedAll(ns[1..]))
  }

  predicate UnmarkedBlocks(bs: Blocks) {
    bs.Block? ==> Unmarked(bs.node) && UnmarkedBlocks(bs.rest)
  }

  /** No static root. */
  predicate NoRoots(n: Node) {
    n.Element? ==> !n.marks.staticRoot && NoRootsAll(n.children) && NoRootsBlocks(n.blocks)
  }

  predicate NoRootsAll(ns: seq<Node>) {
    ns == [] || (NoRoots(ns[0]) && NoRootsAll(ns[1..]))
  }

  predicate NoRootsBlocks(bs: Blocks) {
    bs.Block? ==> NoRoots(bs.node) && NoRootsBlocks(bs.rest)
  }

  /** A static root depends on no expression and has no static root inside. */
  predicate Sound(n: Node) {
    n.Element? ==>
      if n.marks.staticRoot then Quiet(n) && NoRootsAll(n.children) && NoRootsBlocks(n.blocks)
      else SoundAll(n.children) && SoundBlocks(n.blocks)
  }

  predicate SoundAll(ns: seq<Node>) {
    ns == [] || (Sound(ns[0]) && SoundAll(ns[1..]))
  }

  predicate SoundBlocks(bs: Blocks) {
    bs.Block? ==> Sound(bs.node) && SoundBlocks(bs.rest)
  }

  /** Every static root that will be reused, not being in a v-for, has no slot. */
  predicate Fine(n: Node) {
    n.Element? ==>
      if n.marks.staticRoot then n.marks.staticInFor || !HasSlot(n)
      else FineAll(n.children) && FineBlocks(n.blocks)
  }

  predicate FineAll(ns: seq<Node>) {
    ns == [] || (Fine(ns[0]) && FineAll(ns[1..]))
  }

  predicate FineBlocks(bs: Blocks) {
    bs.Block? ==> Fine(bs.node) && FineBlocks(bs.rest)
  }

  // ---------- marking leaves the meaning alone ----------

  /** Two elements that differ in marks and in how their children are marked. */
  ghost predicate Alike(n: Node, m: Node, w: World) {
    && n.Element? && m.Element?
    && m.tag == n.tag && m.attrs == n.attrs && m.pre == n.pre && m.dynamic == n.dynamic
    && m.loop == n.loop && m.cond == n.cond
    && (forall st :: DirectAll(m.children, w, st) == DirectAll(n.children, w, st))
    && (forall st :: DirectBlocks(m.blocks, w, st) == DirectBlocks(n.blocks, w, st))
  }

  lemma AlikeCond(n: Node, m: Node, w: World, st: seq<nat>)
    requires Alike(n, m, w)
    ensures DirectCond(m, w, st) == DirectCond(n, w, st)
  {
    assert DirectTag(m, w, st) == DirectTag(n, w, st);
  }

  lemma {:induction false} AlikeLoop(n: Node, m: Node, w: World, st: seq<nat>, k: nat)
    requires Alike(n, m, w)
    ensures DirectLoop(m, w, st, k) == DirectLoop(n, w, st, k)
  {
    if k > 0 {
      AlikeLoop(n, m, w, st, k - 1);
      AlikeCond(n, m, w, st + [k - 1]);
    }
  }

  lemma AlikeDirect(n: Node, m: Node, w: World, st: seq<nat>)
    requires Alike(n, m, w)
    ensures Direct(m, w, st) == Direct(n, w, st)
  {
    if n.loop.Some? {
      AlikeLoop(n, m, w, st, w.count(n.loop.value, st));
    } else {
      AlikeCond(n, m, w, st);
    }
  }

  lemma {:induction false} MarkStaticMeaning(reserved: Platform, n: Node, inTF: bool, w: World, st: seq<nat>)
    ensures Direct(MarkStatic(reserved, n, inTF), w, st) == Direct(n, w, st)
    decreases n, 1
  {
    if n.Element? {
      var inner := n.tag == "template" && (n.loop.Some? || inTF);
      forall st'
        ensures DirectAll(MarkStaticAll(reserved, n.children, inner), w, st') == DirectAll(n.children, w, st')
      {
        MarkStaticAllMeaning(reserved, n.children, inner, w, st');
      }
      AlikeDirect(n, MarkStatic(reserved, n, inTF), w, st);
    }
  }

  lemma {:induction false} MarkStaticAllMeaning(reserved: Platform, ns: seq<Node>, inTF: bool, w: World, st: seq<nat>)
    ensures DirectAll(MarkStaticAll(reserved, ns, inTF), w, st) == DirectAll(ns, w, st)
    decreases ns, 0
  {
    if ns != [] {
      MarkStaticMeaning(reserved, ns[0], inTF, w, st);
      MarkStaticAllMeaning(reserved, ns[1..], inTF, w, st);
      assert MarkStaticAll(reserved, ns, inTF)[1..] == MarkStaticAll(reserved, ns[1..], inTF);
    }
  }

  lemma {:induction false} MarkRootsMeaning(n: Node, inFor: bool, w: World, st: seq<nat>)
    ensures Direct(MarkRoots(n, inFor), w, st) == Direct(n, w, st)
    decreases n, 1
  {
    if n.Element? {
      forall st'
        ensures DirectAll(MarkRootsAll(n.children, inFor || n.loop.Some?), w, st') == DirectAll(n.children, w, st')
      {
        MarkRootsAllMeaning(n.children, inFor || n.loop.Some?, w, st');
      }
      forall st'
        ensures DirectBlocks(MarkRootsBlocks(n.blocks, inFor), w, st') == DirectBlocks(n.blocks, w, st')
      {
        MarkRootsBlocksMeaning(n.blocks, inFor, w, st');
      }
      AlikeDirect(n, MarkRoots(n, inFor), w, st);
    }
  }

  lemma {:induction false} MarkRootsAllMeaning(ns: seq<Node>, inFor: bool, w: World, st: seq<nat>)
    ensures DirectAll(MarkRootsAll(ns, inFor), w, st) == DirectAll(ns, w, st)
    decreases ns, 0
  {
    if ns != [] {
      MarkRootsMeaning(ns[0], inFor, w, st);
      MarkRootsAllMeaning(ns[1..], inFor, w, st);
      assert MarkRootsAll(ns, inFor)[1..] == MarkRootsAll(ns[1..], inFor);
    }
  }

  lemma {:induction false} MarkRootsBlocksMeaning(bs: Blocks, inFor: bool, w: World, st: seq<nat>)
    ensures DirectBlocks(MarkRootsBlocks(bs, inFor), w, st) == DirectBlocks(bs, w, st)
    decreases bs, 0
  {
    if bs.Block? {
      MarkRootsMeaning(bs.node, inFor, w, st);
      MarkRootsBlocksMeaning(bs.rest, inFor, w, st);
    }
  }

  lemma OptimizeMeaning(reserved: Platform, root: Node, w: World, st: seq<nat>)
    ensures Direct(Optimize(reserved, root), w, st) == Direct(root, w, st)
  {
    MarkStaticMeaning(reserved, root, false, w, st);
    MarkRootsMeaning(MarkStatic(reserved, root, false), false, w, st);
  }

  // ---------- marked static means constant ----------

  /** Every element marked static is quiet, and there are no static roots yet. */
  predicate Truthful(n: Node) {
    n.Element? ==>
      (n.marks.isStatic ==> Quiet(n)) && !n.marks.staticRoot && TruthfulAll(n.children) && TruthfulBlocks(n.blocks)
  }

  predicate TruthfulAll(ns: seq<Node>) {
    ns == [] || (Truthful(ns[0]) && TruthfulAll(ns[1..]))
  }

  predicate TruthfulBlocks(bs: Blocks) {
    bs.Block? ==> Truthful(bs.node) && TruthfulBlocks(bs.rest)
  }

  lemma {:induction false} UnmarkedTruthful(n: Node)
    requires Unmarked(n)
    ensures Truthful(n)
    decreases n, 1
  {
    if n.Element? {
      UnmarkedTruthfulAll(n.children);
      UnmarkedTruthfulBlocks(n.blocks);
    }
  }

  lemma {:induction false} UnmarkedTruthfulAll(ns: seq<Node>)
    requires UnmarkedAll(ns)
    ensures TruthfulAll(ns)
    decreases ns, 0
  {
    if ns != [] {
      UnmarkedTruthful(ns[0]);
      UnmarkedTruthfulAll(ns[1..]);
    }
  }

  lemma {:induction false} UnmarkedTruthfulBlocks(bs: Blocks)
    requires UnmarkedBlocks(bs)
    ensures TruthfulBlocks(bs)
    decreases bs, 0
  {
    if bs.Block? {
      UnmarkedTruthful(bs.node);
      UnmarkedTruthfulBlocks(bs.rest);
    }
  }

  /** What markStatic$1 marks does not depend on any expression, however deep. */
  lemma {:induction false} MarkStaticTruthful(reserved: Platform, n: Node, inTF: bool)
    requires Unmarked(n) && PreRaw(n)
    ensures var m := MarkStatic(reserved, n, inTF); Truthful(m) && (IsMarked(m) ==> Quiet(m)) && (Quiet(n) ==> Quiet(m))
    decreases n, 1
  {
    if n.Element? {
      UnmarkedTruthful(n);
      if !Closed(reserved, n) {
        MarkStaticTruthfulAll(reserved, n.children, n.tag == "template" && (n.loop.Some? || inTF));
      }
    }
  }

  lemma {:induction false} MarkStaticTruthfulAll(reserved: Platform, ns: seq<Node>, inTF: bool)
    requires UnmarkedAll(ns) && PreRawAll(ns)
    ensures var ms := MarkStaticAll(reserved, ns, inTF);
            TruthfulAll(ms) && (AllMarked(ms) ==> QuietAll(ms)) && (QuietAll(ns) ==> QuietAll(ms))
    decreases ns, 0
  {
    if ns != [] {
      MarkStaticTruthful(reserved, ns[0], inTF);
      MarkStaticTruthfulAll(reserved, ns[1..], inTF);
      var ms := MarkStaticAll(reserved, ns, inTF);
      assert ms[1..] == MarkStaticAll(reserved, ns[1..], inTF);
      assert AllMarked(ms) ==> IsMarked(ms[0]) && AllMarked(ms[1..]);
    }
  }

  lemma {:induction false} TruthfulNoRoots(n: Node)
    requires Truthful(n)
    ensures NoRoots(n)
    decreases n, 1
  {
    if n.Element? {
      TruthfulNoRootsAll(n.children);
      TruthfulNoRootsBlocks(n.blocks);
    }
  }

  lemma {:induction false} TruthfulNoRootsAll(ns: seq<Node>)
    requires TruthfulAll(ns)
    ensures NoRootsAll(ns)
    decreases ns, 0
  {
    if ns != [] {
      TruthfulNoRoots(ns[0]);
      TruthfulNoRootsAll(ns[1..]);
    }
  }

  lemma {:induction false} TruthfulNoRootsBlocks(bs: Blocks)
    requires TruthfulBlocks(bs)
    ensures NoRootsBlocks(bs)
    decreases bs, 0
  {
    if bs.Block? {
      TruthfulNoRoots(bs.node);
      TruthfulNoRootsBlocks(bs.rest);
    }
  }

  lemma {:induction false} MarkRootsSound(n: Node, inFor: bool)
    requires Truthful(n)
    ensures Sound(MarkRoots(n, inFor))
    decreases n, 1
  {
    if n.Element? {
      TruthfulNoRoots(n);
      MarkRootsSoundAll(n.children, inFor || n.loop.Some?);
      MarkRootsSoundBlocks(n.blocks, inFor);
    }
  }

  lemma {:induction false} MarkRootsSoundAll(ns: seq<Node>, inFor: bool)
    requires TruthfulAll(ns)
    ensures SoundAll(MarkRootsAll(ns, inFor))
    decreases ns, 0
  {
    if ns != [] {
      MarkRootsSound(ns[0], inFor);
      MarkRootsSoundAll(ns[1..], inFor);
      assert MarkRootsAll(ns, inFor)[1..] == MarkRootsAll(ns[1..], inFor);
    }
  }

  lemma {:induction false} MarkRootsSoundBlocks(bs: Blocks, inFor: bool)
    requires TruthfulBlocks(bs)
    ensures SoundBlocks(MarkRootsBlocks(bs, inFor))
    decreases bs, 0
  {
    if bs.Block? {
      MarkRootsSound(bs.node, inFor);
      MarkRootsSoundBlocks(bs.rest, inFor);
    }
  }

  /** A node of the sub-tree by its path, and whether it is in a template with v-for; closed elements hide theirs. */
  function NodeAt(reserved: Platform, n: Node, inTF: bool, path: seq<nat>): Option<(Node, bool)>
    decreases |path|
  {
    if path == [] then Some((n, inTF))
    else if !n.Element? || Closed(reserved, n) || path[0] >= |n.children| then None
    else NodeAt(reserved, n.children[path[0]], n.tag == "template" && (n.loop.Some? || inTF), path[1..])
  }

  ghost predicate Passes(reserved: Platform, n: Node, inTF: bool, path: seq<nat>) {
    var x := NodeAt(reserved, n, inTF, path);
    x.Some? ==> IsStatic(reserved, x.value.0, x.value.1)
  }

  lemma {:induction false} MarkStaticAllAt(reserved: Platform, ns: seq<Node>, inTF: bool)
    ensures var ms := MarkStaticAll(reserved, ns, inTF);
            |ms| == |ns| && forall i :: 0 <= i < |ns| ==> ms[i] == MarkStatic(reserved, ns[i], inTF)
  {
    if ns != [] {
      MarkStaticAllAt(reserved, ns[1..], inTF);
    }
  }

  lemma PassesSelf(reserved: Platform, n: Node, inTF: bool)
    ensures Passes(reserved, n, inTF, []) <==> IsStatic(reserved, n, inTF)
    ensures !n.Element? || Closed(reserved, n) ==> forall path :: path != [] ==> Passes(reserved, n, inTF, path)
  {
  }

  lemma PassesChild(reserved: Platform, n: Node, inTF: bool, i: nat, path: seq<nat>)
    requires n.Element? && !Closed(reserved, n)
    ensures Passes(reserved, n, inTF, [i] + path) <==>
            (i < |n.children| ==> Passes(reserved, n.children[i], n.tag == "template" && (n.loop.Some? || inTF), path))
  {
    assert ([i] + path)[1..] == path;
  }

  /** markStatic$1 misses nothing: a node is marked exactly when every node of its sub-tree is static by itself. */
  lemma {:induction false} MarkStaticExact(reserved: Platform, n: Node, inTF: bool)
    ensures IsMarked(MarkStatic(reserved, n, inTF)) <==> forall path :: Passes(reserved, n, inTF, path)
    decreases n
  {
    hide MarkStaticAll, Passes;
    PassesSelf(reserved, n, inTF);
    if n.Element? && !Closed(reserved, n) {
      var inner := n.tag == "template" && (n.loop.Some? || inTF);
      var kids := MarkStaticAll(reserved, n.children, inner);
      MarkStaticAllAt(reserved, n.children, inner);
      forall i | 0 <= i < |n.children|
        ensures IsMarked(kids[i]) <==> forall path :: Passes(reserved, n.children[i], inner, path)
      {
        MarkStaticExact(reserved, n.children[i], inner);
      }
      ChildrenPass(reserved, n, inTF, inner);
    }
  }

  /** Every path below an element goes through one of its children. */
  lemma ChildrenPass(reserved: Platform, n: Node, inTF: bool, inner: bool)
    requires n.Element? && !Closed(reserved, n) && inner == (n.tag == "template" && (n.loop.Some? || inTF))
    ensures (forall path :: Passes(reserved, n, inTF, path)) <==>
            && IsStatic(reserved, n, inTF)
            && forall i, path :: 0 <= i < |n.children| ==> Passes(reserved, n.children[i], inner, path)
  {
    hide Passes, IsStatic;
    PassesSelf(reserved, n, inTF);
    if forall path :: Passes(reserved, n, inTF, path) {
      forall i: nat, path | i < |n.children|
        ensures Passes(reserved, n.children[i], inner, path)
      {
        PassesChild(reserved, n, inTF, i, path);
      }
    } else {
      var path :| !Passes(reserved, n, inTF, path);
      if path != [] {
        assert [path[0]] + path[1..] == path;
        PassesChild(reserved, n, inTF, path[0], path[1..]);
      }
    }
  }

  /** Worth hoisting: not empty, and not just a text. */
  predicate Worth(n: Node)
    requires n.Element?
  {
    |n.children| > 0 && !(|n.children| == 1 && n.children[0].Text?)
  }

  /** Outside the static roots nothing that is static is worth hoisting; a root knows whether it is in a v-for. */
  predicate Complete(n: Node, inFor: bool) {
    n.Element? ==>
      if n.marks.staticRoot then n.marks.isStatic && Worth(n) && n.marks.staticInFor == inFor
      else !(n.marks.isStatic && Worth(n)) && CompleteAll(n.children, inFor || n.loop.Some?)
  }

  predicate CompleteAll(ns: seq<Node>, inFor: bool) {
    ns == [] || (Complete(ns[0], inFor) && CompleteAll(ns[1..], inFor))
  }

  /** markStaticRoots takes every outermost static sub-tree that is worth hoisting, and nothing else. */
  lemma {:induction false} MarkRootsComplete(n: Node, inFor: bool)
    ensures Complete(MarkRoots(n, inFor), inFor)
    decreases n, 1
  {
    if n.Element? {
      MarkRootsCompleteAll(n.children, inFor || n.loop.Some?);
    }
  }

  lemma {:induction false} MarkRootsCompleteAll(ns: seq<Node>, inFor: bool)
    ensures var ms := MarkRootsAll(ns, inFor);
            CompleteAll(ms, inFor) && |ms| == |ns| && (|ns| > 0 ==> ms[0].Text? == ns[0].Text?)
    decreases ns, 0
  {
    if ns != [] {
      MarkRootsComplete(ns[0], inFor);
      MarkRootsCompleteAll(ns[1..], inFor);
      assert MarkRootsAll(ns, inFor)[1..] == MarkRootsAll(ns[1..], inFor);
    }
  }

  /** Every static root the optimizer makes depends on no expression and contains no other static root. */
  lemma OptimizeSound(reserved: Platform, root: Node)
    requires Unmarked(root) && PreRaw(root)
    ensures Sound(Optimize(reserved, root))
  {
    MarkStaticTruthful(reserved, root, false);
    MarkRootsSound(MarkStatic(reserved, root, false), false);
  }

  // ---------- static roots are constant code ----------

  /** A quiet sub-tree means the same whatever the loop indices. */
  lemma {:induction false} QuietDirect(n: Node, w: World, st: seq<nat>, w': World, st': seq<nat>)
    requires Quiet(n) && (w'.slot == w.slot || !HasSlot(n))
    ensures Direct(n, w, st) == Direct(n, w', st')
    decreases n, 1
  {
    if n.Element? {
      QuietDirectAll(n.children, w, st, w', st');
      assert DirectTag(n, w, st) == DirectTag(n, w', st');
    }
  }

  lemma {:induction false} QuietDirectAll(ns: seq<Node>, w: World, st: seq<nat>, w': World, st': seq<nat>)
    requires QuietAll(ns) && (w'.slot == w.slot || !AnySlot(ns))
    ensures DirectAll(ns, w, st) == DirectAll(ns, w', st')
    decreases ns, 0
  {
    if ns != [] {
      QuietDirect(ns[0], w, st, w', st');
      QuietDirectAll(ns[1..], w, st, w', st');
    }
  }

  /** Code without expressions, slots or static trees. */
  predicate Const(c: Code) {
    match c
    case CText(_) => true
    case CElem(_, _, _, dynamic, children) => dynamic == [] && ConstAll(children)
    case CList(children) => ConstAll(children)
    case _ => false
  }

  predicate ConstAll(cs: seq<Code>) {
    cs == [] || (Const(cs[0]) && ConstAll(cs[1..]))
  }

  lemma {:induction false} ConstExec(c: Code, w: World, st: seq<nat>, w': World, st': seq<nat>,
                                     fns: seq<Code>, lim: nat, trees: Trees, trees': Trees)
    requires Const(c) && lim <= |fns| && Layered(fns) && Within(c, 0, lim)
    ensures Exec(c, w, st, fns, lim, trees).trees == trees
    ensures Exec(c, w, st, fns, lim, trees).tree == Exec(c, w', st', fns, lim, trees').tree
    decreases c, 1
  {
    match c
    case CElem(_, _, _, _, children) => ConstExecAll(children, w, st, w', st', fns, lim, trees, trees');
    case CList(children) => ConstExecAll(children, w, st, w', st', fns, lim, trees, trees');
    case CText(_) =>
  }

  lemma {:induction false} ConstExecAll(cs: seq<Code>, w: World, st: seq<nat>, w': World, st': seq<nat>,
                                        fns: seq<Code>, lim: nat, trees: Trees, trees': Trees)
    requires ConstAll(cs) && lim <= |fns| && Layered(fns) && WithinAll(cs, 0, lim)
    ensures ExecAll(cs, w, st, fns, lim, trees).trees == trees
    ensures ExecAll(cs, w, st, fns, lim, trees).tree == ExecAll(cs, w', st', fns, lim, trees').tree
    decreases cs, 0
  {
    if cs != [] {
      ConstExec(cs[0], w, st, w', st', fns, lim, trees, trees');
      ConstExec(cs[0], w', st', w, st, fns, lim, trees', trees);
      ConstExecAll(cs[1..], w, st, w', st', fns, lim, trees, trees');
    }
  }

  lemma {:induction false} NoRootsGen(n: Node, from: nat)
    requires NoRoots(n)
    ensures Gen(n, from).fns == []
    ensures Quiet(n) && !HasSlot(n) ==> Const(Gen(n, from).code)
    decreases n, 1
  {
    if n.Element? {
      RootGen(n, from);
    }
  }

  /** The code of an element without static roots inside pushes no render function. */
  lemma {:induction false} RootGen(n: Node, from: nat)
    requires n.Element? && NoRootsAll(n.children) && NoRootsBlocks(n.blocks)
    ensures GenLoop(n, from).fns == []
    ensures Quiet(n) && !HasSlot(n) ==> Const(GenLoop(n, from).code)
    decreases n, 0
  {
    NoRootsGenAll(n.children, from);
    NoRootsGenBlocks(n.blocks, from);
    assert GenTag(n, from).fns == [];
  }

  lemma {:induction false} NoRootsGenAll(ns: seq<Node>, from: nat)
    requires NoRootsAll(ns)
    ensures GenAll(ns, from).fns == []
    ensures QuietAll(ns) && !AnySlot(ns) ==> ConstAll(GenAll(ns, from).code)
    decreases ns, 0
  {
    if ns != [] {
      NoRootsGen(ns[0], from);
      NoRootsGenAll(ns[1..], from);
      assert GenAll(ns, from).code[1..] == GenAll(ns[1..], from).code;
    }
  }

  lemma {:induction false} NoRootsGenBlocks(bs: Blocks, from: nat)
    requires NoRootsBlocks(bs)
    ensures GenBlocks(bs, from).fns == []
    decreases bs, 0
  {
    if bs.Block? {
      NoRootsGen(bs.node, from);
      NoRootsGenBlocks(bs.rest, from);
    }
  }

  // ---------- generated code is well layered ----------

  lemma {:induction false} WithinMore(c: Code, lo: nat, hi: nat, lo': nat, hi': nat)
    requires Within(c, lo, hi) && lo' <= lo && hi <= hi'
    ensures Within(c, lo', hi')
    decreases c, 1
  {
    match c
    case CElem(_, _, _, _, children) => WithinMoreAll(children, lo, hi, lo', hi');
    case CSlot(children) => WithinMoreAll(children, lo, hi, lo', hi');
    case CList(children) => WithinMoreAll(children, lo, hi, lo', hi');
    case CFor(_, body) => WithinMore(body, lo, hi, lo', hi');
    case CIf(_, yes, no) => WithinMore(yes, lo, hi, lo', hi'); WithinMore(no, lo, hi, lo', hi');
    case _ =>
  }

  lemma {:induction false} WithinMoreAll(cs: seq<Code>, lo: nat, hi: nat, lo': nat, hi': nat)
    requires WithinAll(cs, lo, hi) && lo' <= lo && hi <= hi'
    ensures WithinAll(cs, lo', hi')
    decreases cs, 0
  {
    if cs != [] {
      WithinMore(cs[0], lo, hi, lo', hi');
      WithinMoreAll(cs[1..], lo, hi, lo', hi');
    }
  }

  /** Function j of a part that starts at `from` uses only the functions of that part before it. */
  predicate LayeredFrom(fns: seq<Code>, from: nat) {
    forall j :: 0 <= j < |fns| ==> Within(fns[j], from, from + j)
  }

  lemma LayeredAdd(a: seq<Code>, b: seq<Code>, from: nat)
    requires LayeredFrom(a, from) && LayeredFrom(b, from + |a|)
    ensures LayeredFrom(a + b, from)
  {
    forall j | 0 <= j < |a + b|
      ensures Within((a + b)[j], from, from + j)
    {
      if j >= |a| {
        WithinMore(b[j - |a|], from + |a|, from + |a| + (j - |a|), from, from + j);
      }
    }
  }

  lemma {:induction false} GenLayered(el: Node, from: nat)
    ensures var o := Gen(el, from); LayeredFrom(o.fns, from) && Within(o.code, from, from + |o.fns|)
    decreases el, 5
  {
    if el.Element? {
      GenLoopLayered(el, from);
      var o := GenLoop(el, from);
      if el.marks.staticRoot {
        assert LayeredFrom(o.fns + [o.code], from);
      }
    }
  }

  lemma {:induction false} GenLoopLayered(el: Node, from: nat)
    requires el.Element?
    ensures var o := GenLoop(el, from); LayeredFrom(o.fns, from) && Within(o.code, from, from + |o.fns|)
    decreases el, 4
  {
    hide LayeredFrom, GenAll, GenBlocks;
    GenAllLayered(el.children, from);
    var o := GenTag(el, from);
    if el.cond.Some? {
      var e := GenBlocks(el.blocks, from + |o.fns|);
      GenBlocksLayered(el.blocks, from + |o.fns|);
      Join(o.code, o.fns, e.code, e.fns, from);
    }
  }

  /** Two parts one after the other. */
  lemma Join(c: Code, a: seq<Code>, d: Code, b: seq<Code>, from: nat)
    requires LayeredFrom(a, from) && Within(c, from, from + |a|)
    requires LayeredFrom(b, from + |a|) && Within(d, from + |a|, from + |a| + |b|)
    ensures LayeredFrom(a + b, from) && Within(c, from, from + |a + b|) && Within(d, from, from + |a + b|)
  {
    LayeredAdd(a, b, from);
    WithinMore(c, from, from + |a|, from, from + |a + b|);
    WithinMore(d, from + |a|, from + |a| + |b|, from, from + |a + b|);
  }

  lemma {:induction false} GenBlocksLayered(bs: Blocks, from: nat)
    ensures var o := GenBlocks(bs, from); LayeredFrom(o.fns, from) && Within(o.code, from, from + |o.fns|)
    decreases bs, 0
  {
    if bs.Block? {
      var o := Gen(bs.node, from);
      GenLayered(bs.node, from);
      if bs.exp.Some? {
        var e := GenBlocks(bs.rest, from + |o.fns|);
        GenBlocksLayered(bs.rest, from + |o.fns|);
        Join(o.code, o.fns, e.code, e.fns, from);
      }
    }
  }

  lemma {:induction false} GenAllLayered(els: seq<Node>, from: nat)
    ensures var o := GenAll(els, from); LayeredFrom(o.fns, from) && WithinAll(o.code, from, from + |o.fns|)
    decreases els, 0
  {
    hide LayeredFrom, Gen;
    if els == [] {
      assert LayeredFrom([], from) by { NoFns(from); }
    } else {
      var o := Gen(els[0], from);
      var r := GenAll(els[1..], from + |o.fns|);
      GenLayered(els[0], from);
      GenAllLayered(els[1..], from + |o.fns|);
      LayeredAdd(o.fns, r.fns, from);
      WithinMore(o.code, from, from + |o.fns|, from, from + |o.fns + r.fns|);
      WithinMoreAll(r.code, from + |o.fns|, from + |o.fns| + |r.fns|, from, from + |o.fns + r.fns|);
      assert GenAll(els, from).code[1..] == r.code;
    }
  }

  lemma NoFns(from: nat)
    ensures LayeredFrom([], from)
  {
  }

  // ---------- hoisted code renders what the template means ----------

  /** A world where every condition holds and every loop runs once; slot content c, or none. */
  function Plain(slot: Option<string>): World {
    World((e, st) => "", (e, st) => true, (e, st) => 1, slot)
  }

  /** The tree a constant render function gives. */
  function TreeOf(fns: seq<Code>, i: nat): seq<VNode>
    requires Layered(fns) && i < |fns|
  {
    EraseAll(Exec(fns[i], Plain(None), [], fns, i, map[]).tree)
  }

  /** What is kept of a constant render function is what it always gives. */
  ghost predicate TreesOk(trees: Trees, fns: seq<Code>)
    requires Layered(fns)
  {
    forall i :: i in trees && i < |fns| && Const(fns[i]) ==> EraseAll(trees[i]) == TreeOf(fns, i)
  }

  /** The functions of o stand in fns from position `from` on. */
  predicate Placed(fns: seq<Code>, from: nat, part: seq<Code>) {
    from + |part| <= |fns| && forall j :: 0 <= j < |part| ==> fns[from + j] == part[j]
  }

  lemma PlacedParts(fns: seq<Code>, from: nat, a: seq<Code>, b: seq<Code>)
    requires Placed(fns, from, a + b)
    ensures Placed(fns, from, a) && Placed(fns, from + |a|, b)
  {
    assert forall j :: 0 <= j < |a| ==> (a + b)[j] == a[j];
    forall j | 0 <= j < |b|
      ensures fns[from + |a| + j] == b[j]
    {
      assert (a + b)[|a| + j] == b[j] && fns[from + (|a| + j)] == (a + b)[|a| + j];
    }
  }

  lemma {:induction false} NoRootsFine(n: Node)
    requires NoRoots(n)
    ensures Sound(n) && Fine(n)
    decreases n, 1
  {
    if n.Element? {
      NoRootsFineAll(n.children);
      NoRootsFineBlocks(n.blocks);
    }
  }

  lemma {:induction false} NoRootsFineAll(ns: seq<Node>)
    requires NoRootsAll(ns)
    ensures SoundAll(ns) && FineAll(ns)
    decreases ns, 0
  {
    if ns != [] {
      NoRootsFine(ns[0]);
      NoRootsFineAll(ns[1..]);
    }
  }

  lemma {:induction false} NoRootsFineBlocks(bs: Blocks)
    requires NoRootsBlocks(bs)
    ensures SoundBlocks(bs) && FineBlocks(bs)
    decreases bs, 0
  {
    if bs.Block? {
      NoRootsFine(bs.node);
      NoRootsFineBlocks(bs.rest);
    }
  }

  /** Keeping a freshly rendered tree. */
  lemma KeepTree(i: nat, w: World, fns: seq<Code>, trees: Trees)
    requires Layered(fns) && i < |fns| && TreesOk(trees, fns)
    requires TreesOk(Exec(fns[i], w, [], fns, i, trees).trees, fns)
    ensures var r := Exec(fns[i], w, [], fns, i, trees);
            TreesOk(r.trees[i := Stamp(i, fns[i], r.tree)], fns)
  {
    var r := Exec(fns[i], w, [], fns, i, trees);
    EraseStamp(i, fns[i], r.tree);
    if Const(fns[i]) {
      ConstExec(fns[i], w, [], Plain(None), [], fns, i, trees, map[]);
    }
  }

  lemma {:induction false} Correct(el: Node, from: nat, w: World, st: seq<nat>, fns: seq<Code>, lim: nat, trees: Trees)
    requires Sound(el) && Fine(el) && Layered(fns) && TreesOk(trees, fns)
    requires var o := Gen(el, from);
             Placed(fns, from, o.fns) && from + |o.fns| <= lim <= |fns| && Within(o.code, 0, lim)
    ensures var r := Exec(Gen(el, from).code, w, st, fns, lim, trees);
            EraseAll(r.tree) == Direct(el, w, st) && TreesOk(r.trees, fns)
    decreases el, 5
  {
    if el.Element? {
      if el.marks.staticRoot {
        CorrectRoot(el, from, w, st, fns, lim, trees);
      } else {
        CorrectLoop(el, from, w, st, fns, lim, trees);
      }
    }
  }

  lemma {:induction false} CorrectRoot(el: Node, from: nat, w: World, st: seq<nat>, fns: seq<Code>, lim: nat,
                                       trees: Trees)
    requires el.Element? && el.marks.staticRoot && Sound(el) && Fine(el) && Layered(fns) && TreesOk(trees, fns)
    requires var o := Gen(el, from);
             Placed(fns, from, o.fns) && from + |o.fns| <= lim <= |fns| && Within(o.code, 0, lim)
    ensures var r := Exec(Gen(el, from).code, w, st, fns, lim, trees);
            EraseAll(r.tree) == Direct(el, w, st) && TreesOk(r.trees, fns)
    decreases el, 4, 1
  {
    hide Quiet, HasSlot, GenLoop, Direct, Const, NoRootsAll, NoRootsBlocks, SoundAll, FineAll, TreesOk;
    RootGen(el, from);
    NoRootsFineAll(el.children);
    NoRootsFineBlocks(el.blocks);
    var c := GenLoop(el, from).code;
    assert Gen(el, from) == Out(Tree(from, el.marks.staticInFor), [c]);
    assert fns[from + 0] == [c][0];
    if from in trees && !el.marks.staticInFor {
      CorrectLoop(el, from, Plain(None), [], fns, from, map[]) by { NoTrees(fns); }
      QuietDirect(el, Plain(None), [], w, st);
      TreesAt(trees, fns, from);
    } else {
      CorrectLoop(el, from, w, [], fns, from, trees);
      QuietDirect(el, w, [], w, st);
      KeepTree(from, w, fns, trees);
      EraseStamp(from, c, Exec(c, w, [], fns, from, trees).tree);
    }
  }

  lemma NoTrees(fns: seq<Code>)
    requires Layered(fns)
    ensures TreesOk(map[], fns)
  {
  }

  lemma TreesAt(trees: Trees, fns: seq<Code>, i: nat)
    requires Layered(fns) && TreesOk(trees, fns) && i in trees && i < |fns| && Const(fns[i])
    ensures EraseAll(trees[i]) == TreeOf(fns, i)
  {
  }

  lemma {:induction false} CorrectLoop(el: Node, from: nat, w: World, st: seq<nat>, fns: seq<Code>, lim: nat,
                                       trees: Trees)
    requires el.Element? && SoundAll(el.children) && SoundBlocks(el.blocks) && FineAll(el.children)
    requires FineBlocks(el.blocks)
    requires Layered(fns) && TreesOk(trees, fns)
    requires var o := GenLoop(el, from);
             Placed(fns, from, o.fns) && from + |o.fns| <= lim <= |fns| && Within(o.code, 0, lim)
    ensures var r := Exec(GenLoop(el, from).code, w, st, fns, lim, trees);
            EraseAll(r.tree) == Direct(el, w, st) && TreesOk(r.trees, fns)
    decreases el, 4, 0
  {
    hide GenCond, DirectCond, DirectLoop, TreesOk, ExecLoop;
    if el.loop.Some? {
      CorrectTimes(el, from, w, st, w.count(el.loop.value, st), fns, lim, trees);
    } else {
      CorrectCond(el, from, w, st, fns, lim, trees);
    }
  }

  lemma {:induction false} CorrectTimes(el: Node, from: nat, w: World, st: seq<nat>, k: nat, fns: seq<Code>,
                                        lim: nat, trees: Trees)
    requires el.Element? && SoundAll(el.children) && SoundBlocks(el.blocks) && FineAll(el.children)
    requires FineBlocks(el.blocks)
    requires Layered(fns) && TreesOk(trees, fns)
    requires var o := GenCond(el, from);
             Placed(fns, from, o.fns) && from + |o.fns| <= lim <= |fns| && Within(o.code, 0, lim)
    ensures var r := ExecLoop(GenCond(el, from).code, w, st, k, fns, lim, trees);
            EraseAll(r.tree) == DirectLoop(el, w, st, k) && TreesOk(r.trees, fns)
    decreases el, 3, k
  {
    hide GenCond, DirectCond, Exec, TreesOk;
    if k > 0 {
      CorrectTimes(el, from, w, st, k - 1, fns, lim, trees);
      var c := GenCond(el, from).code;
      var r := ExecLoop(c, w, st, k - 1, fns, lim, trees);
      CorrectCond(el, from, w, st + [k - 1], fns, lim, r.trees);
      EraseAdd(r.tree, Exec(c, w, st + [k - 1], fns, lim, r.trees).tree);
    }
  }

  lemma {:induction false} CorrectCond(el: Node, from: nat, w: World, st: seq<nat>, fns: seq<Code>, lim: nat,
                                       trees: Trees)
    requires el.Element? && SoundAll(el.children) && SoundBlocks(el.blocks) && FineAll(el.children)
    requires FineBlocks(el.blocks)
    requires Layered(fns) && TreesOk(trees, fns)
    requires var o := GenCond(el, from);
             Placed(fns, from, o.fns) && from + |o.fns| <= lim <= |fns| && Within(o.code, 0, lim)
    ensures var r := Exec(GenCond(el, from).code, w, st, fns, lim, trees);
            EraseAll(r.tree) == DirectCond(el, w, st) && TreesOk(r.trees, fns)
    decreases el, 2
  {
    hide GenTag, GenBlocks, DirectTag, DirectBlocks, TreesOk;
    var o := GenTag(el, from);
    if el.cond.None? {
      CorrectTag(el, from, w, st, fns, lim, trees);
    } else {
      var e := GenBlocks(el.blocks, from + |o.fns|);
      PlacedParts(fns, from, o.fns, e.fns);
      if w.truth(el.cond.value, st) {
        CorrectTag(el, from, w, st, fns, lim, trees);
      } else {
        CorrectBlocks(el.blocks, from + |o.fns|, w, st, fns, lim, trees);
      }
    }
  }

  lemma {:induction false} CorrectBlocks(bs: Blocks, from: nat, w: World, st: seq<nat>, fns: seq<Code>, lim: nat,
                                         trees: Trees)
    requires SoundBlocks(bs) && FineBlocks(bs) && Layered(fns) && TreesOk(trees, fns)
    requires var o := GenBlocks(bs, from);
             Placed(fns, from, o.fns) && from + |o.fns| <= lim <= |fns| && Within(o.code, 0, lim)
    ensures var r := Exec(GenBlocks(bs, from).code, w, st, fns, lim, trees);
            EraseAll(r.tree) == DirectBlocks(bs, w, st) && TreesOk(r.trees, fns)
    decreases bs, 0
  {
    hide Gen, Direct, TreesOk;
    if bs.Block? {
      var o := Gen(bs.node, from);
      if bs.exp.None? {
        Correct(bs.node, from, w, st, fns, lim, trees);
      } else {
        var e := GenBlocks(bs.rest, from + |o.fns|);
        PlacedParts(fns, from, o.fns, e.fns);
        if w.truth(bs.exp.value, st) {
          Correct(bs.node, from, w, st, fns, lim, trees);
        } else {
          CorrectBlocks(bs.rest, from + |o.fns|, w, st, fns, lim, trees);
        }
      }
    }
  }

  lemma {:induction false} CorrectTag(el: Node, from: nat, w: World, st: seq<nat>, fns: seq<Code>, lim: nat,
                                      trees: Trees)
    requires el.Element? && SoundAll(el.children) && FineAll(el.children) && Layered(fns) && TreesOk(trees, fns)
    requires var o := GenTag(el, from);
             Placed(fns, from, o.fns) && from + |o.fns| <= lim <= |fns| && Within(o.code, 0, lim)
    ensures var r := Exec(GenTag(el, from).code, w, st, fns, lim, trees);
            EraseAll(r.tree) == DirectTag(el, w, st) && TreesOk(r.trees, fns)
    decreases el, 1
  {
    hide GenAll, DirectAll, ExecAll, TreesOk;
    CorrectAll(el.children, from, w, st, fns, lim, trees);
  }

  lemma {:induction false} CorrectAll(els: seq<Node>, from: nat, w: World, st: seq<nat>, fns: seq<Code>, lim: nat,
                                      trees: Trees)
    requires SoundAll(els) && FineAll(els) && Layered(fns) && TreesOk(trees, fns)
    requires var o := GenAll(els, from);
             Placed(fns, from, o.fns) && from + |o.fns| <= lim <= |fns| && WithinAll(o.code, 0, lim)
    ensures var r := ExecAll(GenAll(els, from).code, w, st, fns, lim, trees);
            EraseAll(r.tree) == DirectAll(els, w, st) && TreesOk(r.trees, fns)
    decreases els, 0
  {
    hide Gen, Direct, Exec, TreesOk;
    if els != [] {
      var o := Gen(els[0], from);
      var q := GenAll(els[1..], from + |o.fns|);
      PlacedParts(fns, from, o.fns, q.fns);
      assert GenAll(els, from).code[1..] == q.code;
      Correct(els[0], from, w, st, fns, lim, trees);
      var r := Exec(o.code, w, st, fns, lim, trees);
      CorrectAll(els[1..], from + |o.fns|, w, st, fns, lim, r.trees);
      EraseAdd(r.tree, ExecAll(q.code, w, st, fns, lim, r.trees).tree);
    }
  }

  /** The trees of successive renders, the kept static trees going from each to the next. */
  function Renders(code: Code, fns: seq<Code>, ws: seq<World>, trees: Trees): (r: seq<seq<VNode>>)
    requires Layered(fns) && Within(code, 0, |fns|)
    ensures |r| == |ws|
  {
    if ws == [] then []
    else var e := Exec(code, ws[0], [], fns, |fns|, trees); [e.tree] + Renders(code, fns, ws[1..], e.trees)
  }

  lemma {:induction false} RendersCorrect(m: Node, ws: seq<World>, trees: Trees, k: nat)
    requires Sound(m) && Fine(m) && k < |ws|
    requires var o := Gen(m, 0); Layered(o.fns) && Within(o.code, 0, |o.fns|) && TreesOk(trees, o.fns)
    ensures var o := Gen(m, 0); EraseAll(Renders(o.code, o.fns, ws, trees)[k]) == Direct(m, ws[k], [])
    decreases k
  {
    hide Gen, Direct, Exec, TreesOk, Sound, Fine;
    var o := Gen(m, 0);
    Correct(m, 0, ws[0], [], o.fns, |o.fns|, trees);
    if k > 0 {
      RendersCorrect(m, ws[1..], Exec(o.code, ws[0], [], o.fns, |o.fns|, trees).trees, k - 1);
    }
  }

  /** compileToFunctions: optimize, then generate. */
  function Compile(reserved: Platform, root: Node): (o: Out<Code>)
    ensures Layered(o.fns) && Within(o.code, 0, |o.fns|)
  {
    var m := Optimize(reserved, root);
    GenLayered(m, 0);
    Gen(m, 0)
  }

  lemma HoistingCorrect(reserved: Platform, root: Node, ws: seq<World>, k: nat)
    requires Unmarked(root) && PreRaw(root) && Fine(Optimize(reserved, root)) && k < |ws|
    ensures var o := Compile(reserved, root); EraseAll(Renders(o.code, o.fns, ws, map[])[k]) == Direct(root, ws[k], [])
  {
    hide Optimize, Sound, Fine, Gen, Direct;
    OptimizeSound(reserved, root);
    var o := Compile(reserved, root);
    assert o == Gen(Optimize(reserved, root), 0);
    NoTrees(o.fns);
    RendersCorrect(Optimize(reserved, root), ws, map[], k);
    OptimizeMeaning(reserved, root, ws[k], []);
  }

  // ---------- when hoisting goes wrong ----------

  /** The tree shows slot content c somewhere. */
  predicate Shows(v: VNode, c: string) {
    match v
    case VSlot(content) => content == c
    case VElem(_, _, _, _, children) => AnyShows(children, c)
    case Static(_, node) => Shows(node, c)
    case _ => false
  }

  predicate AnyShows(vs: seq<VNode>, c: string) {
    vs != [] && (Shows(vs[0], c) || AnyShows(vs[1..], c))
  }

  lemma {:induction false} ShowsAdd(a: seq<VNode>, b: seq<VNode>, c: string)
    ensures AnyShows(a + b, c) <==> AnyShows(a, c) || AnyShows(b, c)
  {
    if a == [] {
      assert a + b == b;
    } else {
      assert (a + b)[1..] == a[1..] + b;
      ShowsAdd(a[1..], b, c);
    }
  }

  lemma {:induction false} ShowsErased(v: VNode, c: string)
    ensures Shows(Erase(v), c) <==> Shows(v, c)
    decreases v, 1
  {
    match v
    case VElem(_, _, _, _, children) => AnyShowsErased(children, c);
    case Static(_, node) => ShowsErased(node, c);
    case _ =>
  }

  lemma {:induction false} AnyShowsErased(vs: seq<VNode>, c: string)
    ensures AnyShows(EraseAll(vs), c) <==> AnyShows(vs, c)
    decreases vs, 0
  {
    if vs != [] {
      ShowsErased(vs[0], c);
      AnyShowsErased(vs[1..], c);
      assert EraseAll(vs)[1..] == EraseAll(vs[1..]);
    }
  }

  lemma {:induction false} StampShows(i: nat, f: Code, tree: seq<VNode>, k: nat, c: string)
    requires k <= |tree|
    ensures AnyShows(Stamp(i, f, tree)[k..], c) <==> AnyShows(tree[k..], c)
    decreases |tree| - k
  {
    if k < |tree| {
      var t := Stamp(i, f, tree);
      assert t[k..][1..] == t[k + 1..] && tree[k..][1..] == tree[k + 1..];
      StampShows(i, f, tree, k + 1, c);
    }
  }

  /** Without slot content a template shows none. */
  lemma {:induction false} DirectShowsNone(n: Node, st: seq<nat>, c: string)
    ensures !AnyShows(Direct(n, Plain(None), st), c)
    decreases n, 1
  {
    var w := Plain(None);
    if n.Element? {
      forall st'
        ensures !AnyShows(DirectCond(n, w, st'), c)
      {
        DirectAllShowsNone(n.children, st', c);
        assert DirectCond(n, w, st') == DirectTag(n, w, st');
      }
      if n.loop.Some? {
        assert DirectLoop(n, w, st, 0) == [];
        assert DirectLoop(n, w, st, 1) == DirectCond(n, w, st + [0]);
      }
    }
  }

  lemma {:induction false} DirectAllShowsNone(ns: seq<Node>, st: seq<nat>, c: string)
    ensures !AnyShows(DirectAll(ns, Plain(None), st), c)
    decreases ns, 0
  {
    if ns != [] {
      DirectShowsNone(ns[0], st, c);
      DirectAllShowsNone(ns[1..], st, c);
      ShowsAdd(Direct(ns[0], Plain(None), st), DirectAll(ns[1..], Plain(None), st), c);
    }
  }

  /** Code that shows the slot content when there is any. */
  predicate SlotIn(c: Code) {
    match c
    case CSlot(_) => true
    case CElem(_, _, _, _, children) => SlotInAny(children)
    case CList(children) => SlotInAny(children)
    case _ => false
  }

  predicate SlotInAny(cs: seq<Code>) {
    cs != [] && (SlotIn(cs[0]) || SlotInAny(cs[1..]))
  }

  lemma {:induction false} SlotShows(c: Code, k: string, st: seq<nat>, fns: seq<Code>, lim: nat, trees: Trees)
    requires SlotIn(c) && lim <= |fns| && Layered(fns) && Within(c, 0, lim)
    ensures AnyShows(Exec(c, Plain(Some(k)), st, fns, lim, trees).tree, k)
    decreases c, 1
  {
    match c
    case CElem(_, _, _, _, children) => AnySlotShows(children, k, st, fns, lim, trees);
    case CList(children) => AnySlotShows(children, k, st, fns, lim, trees);
    case CSlot(_) =>
  }

  lemma {:induction false} AnySlotShows(cs: seq<Code>, k: string, st: seq<nat>, fns: seq<Code>, lim: nat, trees: Trees)
    requires SlotInAny(cs) && lim <= |fns| && Layered(fns) && WithinAll(cs, 0, lim)
    ensures AnyShows(ExecAll(cs, Plain(Some(k)), st, fns, lim, trees).tree, k)
    decreases cs, 0
  {
    var r := Exec(cs[0], Plain(Some(k)), st, fns, lim, trees);
    ShowsAdd(r.tree, ExecAll(cs[1..], Plain(Some(k)), st, fns, lim, r.trees).tree, k);
    if SlotIn(cs[0]) {
      SlotShows(cs[0], k, st, fns, lim, trees);
    } else {
      AnySlotShows(cs[1..], k, st, fns, lim, r.trees);
    }
  }

  lemma {:induction false} SlotGen(n: Node, from: nat)
    requires n.Element? && NoRootsAll(n.children) && Quiet(n) && HasSlot(n)
    ensures SlotIn(GenLoop(n, from).code)
    decreases n, 1
  {
    assert GenLoop(n, from) == GenTag(n, from);
    if n.tag != "slot" {
      SlotGenAll(n.children, from);
    }
  }

  lemma {:induction false} SlotGenAll(ns: seq<Node>, from: nat)
    requires NoRootsAll(ns) && QuietAll(ns) && AnySlot(ns)
    ensures SlotInAny(GenAll(ns, from).code)
    decreases ns, 0
  {
    NoRootsGen(ns[0], from);
    assert GenAll(ns, from).code[1..] == GenAll(ns[1..], from).code;
    if HasSlot(ns[0]) {
      SlotGen(ns[0], from);
    } else {
      SlotGenAll(ns[1..], from);
    }
  }

  /** In a plain world the code comes to _m(i), outside any v-for. */
  predicate Reaches(c: Code, i: nat) {
    match c
    case CElem(_, _, _, _, children) => AnyReaches(children, i)
    case CSlot(children) => AnyReaches(children, i)
    case CList(children) => AnyReaches(children, i)
    case CFor(_, body) => Reaches(body, i)
    case CIf(_, yes, _) => Reaches(yes, i)
    case Tree(j, inFor) => j == i && !inFor
    case _ => false
  }

  predicate AnyReaches(cs: seq<Code>, i: nat) {
    cs != [] && (Reaches(cs[0], i) || AnyReaches(cs[1..], i))
  }

  /** The code never renders tree i afresh once there is one. */
  predicate Reuses(c: Code, i: nat) {
    match c
    case CElem(_, _, _, _, children) => AllReuse(children, i)
    case CSlot(children) => AllReuse(children, i)
    case CList(children) => AllReuse(children, i)
    case CFor(_, body) => Reuses(body, i)
    case CIf(_, yes, no) => Reuses(yes, i) && Reuses(no, i)
    case Tree(j, inFor) => j == i ==> !inFor
    case _ => true
  }

  predicate AllReuse(cs: seq<Code>, i: nat) {
    cs == [] || (Reuses(cs[0], i) && AllReuse(cs[1..], i))
  }

  predicate AllFnsReuse(fns: seq<Code>, i: nat) {
    forall j :: 0 <= j < |fns| ==> Reuses(fns[j], i)
  }

  lemma {:induction false} OutsideReuses(c: Code, lo: nat, hi: nat, i: nat)
    requires Within(c, lo, hi) && !(lo <= i < hi)
    ensures Reuses(c, i)
    decreases c, 1
  {
    match c
    case CElem(_, _, _, _, children) => OutsideReusesAll(children, lo, hi, i);
    case CSlot(children) => OutsideReusesAll(children, lo, hi, i);
    case CList(children) => OutsideReusesAll(children, lo, hi, i);
    case CFor(_, body) => OutsideReuses(body, lo, hi, i);
    case CIf(_, yes, no) => OutsideReuses(yes, lo, hi, i); OutsideReuses(no, lo, hi, i);
    case _ =>
  }

  lemma {:induction false} OutsideReusesAll(cs: seq<Code>, lo: nat, hi: nat, i: nat)
    requires WithinAll(cs, lo, hi) && !(lo <= i < hi)
    ensures AllReuse(cs, i)
    decreases cs, 0
  {
    if cs != [] {
      OutsideReuses(cs[0], lo, hi, i);
      OutsideReusesAll(cs[1..], lo, hi, i);
    }
  }

  // The first render keeps a tree that shows the slot content.

  predicate KeptShows(trees: Trees, i: nat, k: string) {
    i in trees ==> AnyShows(trees[i], k)
  }

  lemma {:induction false} FirstRender(c: Code, i: nat, k: string, st: seq<nat>, fns: seq<Code>, lim: nat, trees: Trees)
    requires lim <= |fns| && Layered(fns) && Within(c, 0, lim) && i < |fns| && SlotIn(fns[i]) && KeptShows(trees, i, k)
    ensures var r := Exec(c, Plain(Some(k)), st, fns, lim, trees);
            KeptShows(r.trees, i, k) && (i in trees || Reaches(c, i) ==> i in r.trees)
    decreases lim, c, 1
  {
    var w := Plain(Some(k));
    match c
    case CElem(_, _, _, _, children) => FirstRenderAll(children, i, k, st, fns, lim, trees);
    case CSlot(children) => FirstRenderAll(children, i, k, st, fns, lim, trees);
    case CList(children) => FirstRenderAll(children, i, k, st, fns, lim, trees);
    case CFor(_, body) =>
      assert ExecLoop(body, w, st, 0, fns, lim, trees) == Res([], trees);
      FirstRender(body, i, k, st + [0], fns, lim, trees);
    case CIf(_, yes, _) => FirstRender(yes, i, k, st, fns, lim, trees);
    case Tree(j, inFor) =>
      if j !in trees || inFor {
        FirstRender(fns[j], i, k, [], fns, j, trees);
        if j == i {
          SlotShows(fns[i], k, [], fns, i, trees);
          var t := Exec(fns[i], w, [], fns, i, trees).tree;
          StampShows(i, fns[i], t, 0, k);
          assert Stamp(i, fns[i], t)[0..] == Stamp(i, fns[i], t) && t[0..] == t;
        }
      }
    case _ =>
  }

  lemma {:induction false} FirstRenderAll(cs: seq<Code>, i: nat, k: string, st: seq<nat>, fns: seq<Code>, lim: nat,
                                          trees: Trees)
    requires lim <= |fns| && Layered(fns) && WithinAll(cs, 0, lim) && i < |fns| && SlotIn(fns[i])
    requires KeptShows(trees, i, k)
    ensures var r := ExecAll(cs, Plain(Some(k)), st, fns, lim, trees);
            KeptShows(r.trees, i, k) && (i in trees || AnyReaches(cs, i) ==> i in r.trees)
    decreases lim, cs, 0
  {
    if cs != [] {
      FirstRender(cs[0], i, k, st, fns, lim, trees);
      FirstRenderAll(cs[1..], i, k, st, fns, lim, Exec(cs[0], Plain(Some(k)), st, fns, lim, trees).trees);
    }
  }

  // The next render, without slot content, shows it again.

  lemma {:induction false} NextRender(c: Code, i: nat, k: string, st: seq<nat>, fns: seq<Code>, lim: nat, trees: Trees)
    requires lim <= |fns| && Layered(fns) && Within(c, 0, lim) && i in trees && AnyShows(trees[i], k)
    requires Reuses(c, i) && AllFnsReuse(fns, i)
    ensures var r := Exec(c, Plain(None), st, fns, lim, trees);
            i in r.trees && r.trees[i] == trees[i] && (Reaches(c, i) ==> AnyShows(r.tree, k))
    decreases lim, c, 1
  {
    var w := Plain(None);
    match c
    case CElem(_, _, _, _, children) => NextRenderAll(children, i, k, st, fns, lim, trees);
    case CSlot(children) => NextRenderAll(children, i, k, st, fns, lim, trees);
    case CList(children) => NextRenderAll(children, i, k, st, fns, lim, trees);
    case CFor(_, body) =>
      assert ExecLoop(body, w, st, 0, fns, lim, trees) == Res([], trees);
      NextRender(body, i, k, st + [0], fns, lim, trees);
      assert ExecLoop(body, w, st, 1, fns, lim, trees).tree == Exec(body, w, st + [0], fns, lim, trees).tree;
    case CIf(_, yes, _) => NextRender(yes, i, k, st, fns, lim, trees);
    case Tree(j, inFor) =>
      if j !in trees || inFor {
        NextRender(fns[j], i, k, [], fns, j, trees);
      }
    case _ =>
  }

  lemma {:induction false} NextRenderAll(cs: seq<Code>, i: nat, k: string, st: seq<nat>, fns: seq<Code>, lim: nat,
                                         trees: Trees)
    requires lim <= |fns| && Layered(fns) && WithinAll(cs, 0, lim) && i in trees && AnyShows(trees[i], k)
    requires AllReuse(cs, i) && AllFnsReuse(fns, i)
    ensures var r := ExecAll(cs, Plain(None), st, fns, lim, trees);
            i in r.trees && r.trees[i] == trees[i] && (AnyReaches(cs, i) ==> AnyShows(r.tree, k))
    decreases lim, cs, 0
  {
    if cs != [] {
      NextRender(cs[0], i, k, st, fns, lim, trees);
      var r := Exec(cs[0], Plain(None), st, fns, lim, trees);
      NextRenderAll(cs[1..], i, k, st, fns, lim, r.trees);
      ShowsAdd(r.tree, ExecAll(cs[1..], Plain(None), st, fns, lim, r.trees).tree, k);
    }
  }

  // Which static root goes wrong.

  lemma {:induction false} SoundFnsReuse(el: Node, from: nat, i: nat)
    requires Sound(el)
    ensures AllFnsReuse(Gen(el, from).fns, i)
    decreases el, 1
  {
    if el.Element? {
      var o := GenLoop(el, from);
      if el.marks.staticRoot {
        RootGen(el, from);
        GenLoopLayered(el, from);
        OutsideReuses(o.code, from, from, i);
      } else {
        SoundFnsReuseAll(el.children, from, i);
        var t := GenTag(el, from);
        SoundFnsReuseBlocks(el.blocks, from + |t.fns|, i);
        assert AllFnsReuse(GenCond(el, from).fns, i);
      }
    }
  }

  lemma {:induction false} SoundFnsReuseAll(els: seq<Node>, from: nat, i: nat)
    requires SoundAll(els)
    ensures AllFnsReuse(GenAll(els, from).fns, i)
    decreases els, 0
  {
    if els != [] {
      SoundFnsReuse(els[0], from, i);
      SoundFnsReuseAll(els[1..], from + |Gen(els[0], from).fns|, i);
    }
  }

  lemma {:induction false} SoundFnsReuseBlocks(bs: Blocks, from: nat, i: nat)
    requires SoundBlocks(bs)
    ensures AllFnsReuse(GenBlocks(bs, from).fns, i)
    decreases bs, 0
  {
    if bs.Block? {
      SoundFnsReuse(bs.node, from, i);
      SoundFnsReuseBlocks(bs.rest, from + |Gen(bs.node, from).fns|, i);
    }
  }

  /** No v-else block has a static root. */
  predicate BlockFree(n: Node) {
    n.Element? ==> n.marks.staticRoot || (NoRootsBlocks(n.blocks) && BlockFreeAll(n.children))
  }

  predicate BlockFreeAll(ns: seq<Node>) {
    ns == [] || (BlockFree(ns[0]) && BlockFreeAll(ns[1..]))
  }

  /** The optimizer's first pass does not go into v-else blocks. */
  predicate Bare(n: Node) {
    n.Element? ==> UnmarkedBlocks(n.blocks) && BareAll(n.children)
  }

  predicate BareAll(ns: seq<Node>) {
    ns == [] || (Bare(ns[0]) && BareAll(ns[1..]))
  }

  lemma {:induction false} UnmarkedBare(reserved: Platform, n: Node, inTF: bool)
    requires Unmarked(n)
    ensures Bare(n) && Bare(MarkStatic(reserved, n, inTF))
    decreases n, 1
  {
    if n.Element? {
      UnmarkedBareAll(reserved, n.children, n.tag == "template" && (n.loop.Some? || inTF));
    }
  }

  lemma {:induction false} UnmarkedBareAll(reserved: Platform, ns: seq<Node>, inTF: bool)
    requires UnmarkedAll(ns)
    ensures BareAll(ns) && BareAll(MarkStaticAll(reserved, ns, inTF))
    decreases ns, 0
  {
    if ns != [] {
      UnmarkedBare(reserved, ns[0], inTF);
      UnmarkedBareAll(reserved, ns[1..], inTF);
      assert MarkStaticAll(reserved, ns, inTF)[1..] == MarkStaticAll(reserved, ns[1..], inTF);
    }
  }

  lemma {:induction false} UnmarkedNoRoots(n: Node, inFor: bool)
    requires Unmarked(n)
    ensures NoRoots(MarkRoots(n, inFor))
    decreases n, 1
  {
    if n.Element? {
      UnmarkedNoRootsAll(n.children, inFor || n.loop.Some?);
      UnmarkedNoRootsBlocks(n.blocks, inFor);
    }
  }

  lemma {:induction false} UnmarkedNoRootsAll(ns: seq<Node>, inFor: bool)
    requires UnmarkedAll(ns)
    ensures NoRootsAll(MarkRootsAll(ns, inFor))
    decreases ns, 0
  {
    if ns != [] {
      UnmarkedNoRoots(ns[0], inFor);
      UnmarkedNoRootsAll(ns[1..], inFor);
      assert MarkRootsAll(ns, inFor)[1..] == MarkRootsAll(ns[1..], inFor);
    }
  }

  lemma {:induction false} UnmarkedNoRootsBlocks(bs: Blocks, inFor: bool)
    requires UnmarkedBlocks(bs)
    ensures NoRootsBlocks(MarkRootsBlocks(bs, inFor))
    decreases bs, 0
  {
    if bs.Block? {
      UnmarkedNoRoots(bs.node, inFor);
      UnmarkedNoRootsBlocks(bs.rest, inFor);
    }
  }

  lemma {:induction false} BareBlockFree(n: Node, inFor: bool)
    requires Bare(n)
    ensures BlockFree(MarkRoots(n, inFor))
    decreases n, 1
  {
    if n.Element? {
      BareBlockFreeAll(n.children, inFor || n.loop.Some?);
      UnmarkedNoRootsBlocks(n.blocks, inFor);
    }
  }

  lemma {:induction false} BareBlockFreeAll(ns: seq<Node>, inFor: bool)
    requires BareAll(ns)
    ensures BlockFreeAll(MarkRootsAll(ns, inFor))
    decreases ns, 0
  {
    if ns != [] {
      BareBlockFree(ns[0], inFor);
      BareBlockFreeAll(ns[1..], inFor);
      assert MarkRootsAll(ns, inFor)[1..] == MarkRootsAll(ns[1..], inFor);
    }
  }

  /** What holds of the children's code holds of the element's. */
  lemma StaleUp(el: Node, from: nat, i: nat)
    requires el.Element? && NoRootsBlocks(el.blocks)
    requires var o := GenAll(el.children, from);
             from <= i < from + |o.fns| && AnyReaches(o.code, i) && AllReuse(o.code, i) && SlotIn(o.fns[i - from])
    ensures var o := GenLoop(el, from);
            from <= i < from + |o.fns| && Reaches(o.code, i) && Reuses(o.code, i) && SlotIn(o.fns[i - from])
  {
    hide GenAll, AnyReaches, AllReuse, SlotIn, NoRootsBlocks, GenBlocks, Within;
    var n := from + |GenTag(el, from).fns|;
    assert Reaches(GenTag(el, from).code, i) && Reuses(GenTag(el, from).code, i);
    if el.cond.Some? {
      NoRootsGenBlocks(el.blocks, n);
      GenBlocksLayered(el.blocks, n);
      OutsideReuses(GenBlocks(el.blocks, n).code, n, n, i);
    }
    var c := GenCond(el, from);
    assert Reaches(c.code, i) && Reuses(c.code, i) && c.fns == GenTag(el, from).fns;
  }

  lemma {:induction false} StaleIndex(el: Node, from: nat) returns (i: nat)
    requires Sound(el) && BlockFree(el) && !Fine(el)
    ensures var o := Gen(el, from);
            from <= i < from + |o.fns| && Reaches(o.code, i) && Reuses(o.code, i) && SlotIn(o.fns[i - from])
    decreases el, 1
  {
    hide GenLoop, GenAll, SlotIn, AnyReaches, AllReuse, NoRootsBlocks;
    if el.marks.staticRoot {
      RootGen(el, from);
      SlotGen(el, from);
      i := from;
    } else {
      NoRootsFineBlocks(el.blocks);
      i := StaleIndexAll(el.children, from);
      StaleUp(el, from, i);
    }
  }

  lemma {:induction false} StaleIndexAll(els: seq<Node>, from: nat) returns (i: nat)
    requires SoundAll(els) && BlockFreeAll(els) && !FineAll(els)
    ensures var o := GenAll(els, from);
            from <= i < from + |o.fns| && AnyReaches(o.code, i) && AllReuse(o.code, i) && SlotIn(o.fns[i - from])
    decreases els, 0
  {
    hide Gen, Sound, Fine, BlockFree, Reaches, Reuses, SlotIn, Within, WithinAll, LayeredFrom;
    var o := Gen(els[0], from);
    var r := GenAll(els[1..], from + |o.fns|);
    assert GenAll(els, from).code[1..] == r.code;
    GenLayered(els[0], from);
    GenAllLayered(els[1..], from + |o.fns|);
    if !Fine(els[0]) {
      i := StaleIndex(els[0], from);
      OutsideReusesAll(r.code, from + |o.fns|, from + |o.fns| + |r.fns|, i);
    } else {
      i := StaleIndexAll(els[1..], from + |o.fns|);
      OutsideReuses(o.code, from, from + |o.fns|, i);
    }
  }

  /** A template with a slot in a static root that is reused renders wrong: its slot content is never taken away. */
  lemma HoistingStale(reserved: Platform, root: Node)
    requires Unmarked(root) && PreRaw(root) && !Fine(Optimize(reserved, root))
    ensures var (o, ws) := (Compile(reserved, root), [Plain(Some("a")), Plain(None)]);
            EraseAll(Renders(o.code, o.fns, ws, map[])[1]) != Direct(root, ws[1], [])
  {
    hide Fine, Sound, Gen, Direct, Exec, SlotIn, Reaches, Reuses, MarkStatic, MarkRoots, BlockFree, Shows;
    hide AnyShows, EraseAll;
    var m := Optimize(reserved, root);
    var o := Compile(reserved, root);
    assert o == Gen(m, 0);
    OptimizeSound(reserved, root);
    UnmarkedBare(reserved, root, false);
    BareBlockFree(MarkStatic(reserved, root, false), false);
    var i := StaleIndex(m, 0);
    SoundFnsReuse(m, 0, i);
    var ws := [Plain(Some("a")), Plain(None)];
    FirstRender(o.code, i, "a", [], o.fns, |o.fns|, map[]);
    var e := Exec(o.code, ws[0], [], o.fns, |o.fns|, map[]);
    NextRender(o.code, i, "a", [], o.fns, |o.fns|, e.trees);
    var t := Exec(o.code, ws[1], [], o.fns, |o.fns|, e.trees).tree;
    assert Renders(o.code, o.fns, ws, map[])[1] == Renders(o.code, o.fns, ws[1..], e.trees)[0] == t;
    AnyShowsErased(t, "a");
    DirectShowsNone(root, [], "a");
  }

  // Which templates these are.

  /** Every node of the sub-tree the optimizer looks at is static by itself. */
  ghost predicate AllPass(reserved: Platform, n: Node, inTF: bool) {
    forall path :: Passes(reserved, n, inTF, path)
  }

  /** An element with v-for is above the node at the path. */
  predicate InLoop(n: Node, path: seq<nat>)
    decreases |path|
  {
    path != [] && n.Element? && path[0] < |n.children| && (n.loop.Some? || InLoop(n.children[path[0]], path[1..]))
  }

  /** The node at the path is static and worth hoisting, in no v-for, and has a slot in it. */
  ghost predicate StaleAt(reserved: Platform, n: Node, inTF: bool, path: seq<nat>) {
    var x := NodeAt(reserved, n, inTF, path);
    && x.Some? && x.value.0.Element? && !InLoop(n, path)
    && AllPass(reserved, x.value.0, x.value.1) && Worth(x.value.0) && HasSlot(x.value.0)
  }

  ghost predicate Stale(reserved: Platform, n: Node, inTF: bool) {
    exists path :: StaleAt(reserved, n, inTF, path)
  }

  lemma {:induction false} MarkStaticSlots(reserved: Platform, n: Node, inTF: bool)
    ensures HasSlot(MarkStatic(reserved, n, inTF)) == HasSlot(n)
    decreases n, 1
  {
    if n.Element? {
      MarkStaticAllSlots(reserved, n.children, n.tag == "template" && (n.loop.Some? || inTF));
    }
  }

  lemma {:induction false} MarkStaticAllSlots(reserved: Platform, ns: seq<Node>, inTF: bool)
    ensures AnySlot(MarkStaticAll(reserved, ns, inTF)) == AnySlot(ns)
    decreases ns, 0
  {
    if ns != [] {
      MarkStaticSlots(reserved, ns[0], inTF);
      MarkStaticAllSlots(reserved, ns[1..], inTF);
      assert MarkStaticAll(reserved, ns, inTF)[1..] == MarkStaticAll(reserved, ns[1..], inTF);
    }
  }

  lemma MarkStaticWorth(reserved: Platform, n: Node, inTF: bool)
    requires n.Element?
    ensures Worth(MarkStatic(reserved, n, inTF)) == Worth(n)
  {
    MarkStaticAllAt(reserved, n.children, n.tag == "template" && (n.loop.Some? || inTF));
  }

  lemma {:induction false} AnySlotAt(ns: seq<Node>)
    ensures AnySlot(ns) <==> exists i :: 0 <= i < |ns| && HasSlot(ns[i])
  {
    if ns != [] {
      AnySlotAt(ns[1..]);
      assert forall i :: 0 < i < |ns| ==> ns[i] == ns[1..][i - 1];
    }
  }

  /** A node has the slots of the nodes below it. */
  lemma {:induction false} SlotsAbove(reserved: Platform, n: Node, inTF: bool, path: seq<nat>)
    requires NodeAt(reserved, n, inTF, path).Some? && HasSlot(NodeAt(reserved, n, inTF, path).value.0)
    ensures HasSlot(n)
    decreases |path|
  {
    if path != [] {
      SlotsAbove(reserved, n.children[path[0]], n.tag == "template" && (n.loop.Some? || inTF), path[1..]);
      AnySlotAt(n.children);
    }
  }

  lemma {:induction false} FineAllAt(reserved: Platform, ns: seq<Node>, inTF: bool, inFor: bool)
    ensures FineAll(MarkRootsAll(MarkStaticAll(reserved, ns, inTF), inFor)) <==>
            forall i :: 0 <= i < |ns| ==> Fine(MarkRoots(MarkStatic(reserved, ns[i], inTF), inFor))
  {
    hide MarkStatic, MarkRoots, Fine;
    if ns != [] {
      FineAllAt(reserved, ns[1..], inTF, inFor);
      var ms := MarkStaticAll(reserved, ns, inTF);
      assert ms[1..] == MarkStaticAll(reserved, ns[1..], inTF);
      assert MarkRootsAll(ms, inFor)[1..] == MarkRootsAll(ms[1..], inFor);
      assert forall i :: 0 < i < |ns| ==> ns[i] == ns[1..][i - 1];
    }
  }

  /** A stale node below an element, outside its v-for, is one below a child. */
  lemma StaleBelow(reserved: Platform, n: Node, inTF: bool, inner: bool)
    requires n.Element? && !Closed(reserved, n) && inner == (n.tag == "template" && (n.loop.Some? || inTF))
    requires !StaleAt(reserved, n, inTF, [])
    ensures Stale(reserved, n, inTF) <==>
            n.loop.None? && exists i :: 0 <= i < |n.children| && Stale(reserved, n.children[i], inner)
  {
    hide AllPass, Worth, HasSlot;
    forall path: seq<nat> | path != []
      ensures StaleAt(reserved, n, inTF, path) <==>
              path[0] < |n.children| && n.loop.None? && StaleAt(reserved, n.children[path[0]], inner, path[1..])
    {
    }
    forall i: nat, path: seq<nat> | i < |n.children| && n.loop.None? && StaleAt(reserved, n.children[i], inner, path)
      ensures StaleAt(reserved, n, inTF, [i] + path)
    {
      assert ([i] + path)[1..] == path;
    }
  }

  /** What the two passes of the optimizer leave is fine exactly when the template has no stale node. */
  lemma {:induction false} FineExact(reserved: Platform, n: Node, inTF: bool, inFor: bool)
    requires Unmarked(n)
    ensures Fine(MarkRoots(MarkStatic(reserved, n, inTF), inFor)) <==> inFor || !Stale(reserved, n, inTF)
    decreases n
  {
    hide HasSlot, Worth, Passes;
    if n.Element? {
      var m := MarkStatic(reserved, n, inTF);
      MarkStaticExact(reserved, n, inTF);
      MarkStaticWorth(reserved, n, inTF);
      MarkStaticSlots(reserved, n, inTF);
      if m.marks.isStatic && Worth(n) {
        RootFine(reserved, n, inTF, inFor);
      } else if Closed(reserved, n) {
        ClosedFine(reserved, n, inTF, inFor);
      } else {
        var inner := n.tag == "template" && (n.loop.Some? || inTF);
        UnmarkedAllAt(n.children);
        forall i | 0 <= i < |n.children|
          ensures Fine(MarkRoots(MarkStatic(reserved, n.children[i], inner), inFor || n.loop.Some?)) <==>
                  inFor || n.loop.Some? || !Stale(reserved, n.children[i], inner)
        {
          FineExact(reserved, n.children[i], inner, inFor || n.loop.Some?);
        }
        OpenFine(reserved, n, inTF, inFor, inner);
      }
    }
  }

  lemma {:induction false} UnmarkedAllAt(ns: seq<Node>)
    requires UnmarkedAll(ns)
    ensures forall i :: 0 <= i < |ns| ==> Unmarked(ns[i])
  {
    if ns != [] {
      UnmarkedAllAt(ns[1..]);
      assert forall i :: 0 < i < |ns| ==> ns[i] == ns[1..][i - 1];
    }
  }

  /** An element that becomes a static root. */
  lemma RootFine(reserved: Platform, n: Node, inTF: bool, inFor: bool)
    requires n.Element? && Worth(n) && AllPass(reserved, n, inTF)
    requires var m := MarkStatic(reserved, n, inTF); m.marks.isStatic && Worth(m) && HasSlot(m) == HasSlot(n)
    ensures Fine(MarkRoots(MarkStatic(reserved, n, inTF), inFor)) <==> inFor || !Stale(reserved, n, inTF)
  {
    hide AllPass, MarkStatic;
    var m := MarkStatic(reserved, n, inTF);
    assert Fine(MarkRoots(m, inFor)) <==> inFor || !HasSlot(n);
    if HasSlot(n) {
      assert StaleAt(reserved, n, inTF, []);
    } else {
      forall path
        ensures !StaleAt(reserved, n, inTF, path)
      {
        if StaleAt(reserved, n, inTF, path) {
          SlotsAbove(reserved, n, inTF, path);
        }
      }
    }
  }

  lemma ClosedFine(reserved: Platform, n: Node, inTF: bool, inFor: bool)
    requires n.Element? && Unmarked(n) && Closed(reserved, n)
    requires !(AllPass(reserved, n, inTF) && Worth(n))
    requires MarkStatic(reserved, n, inTF).marks.isStatic ==> !Worth(n)
    ensures Fine(MarkRoots(MarkStatic(reserved, n, inTF), inFor)) && !Stale(reserved, n, inTF)
  {
    hide AllPass;
    UnmarkedNoRootsAll(n.children, inFor || n.loop.Some?);
    UnmarkedNoRootsBlocks(n.blocks, inFor);
    NoRootsFineAll(MarkRootsAll(n.children, inFor || n.loop.Some?));
    NoRootsFineBlocks(MarkRootsBlocks(n.blocks, inFor));
  }

  lemma OpenFine(reserved: Platform, n: Node, inTF: bool, inFor: bool, inner: bool)
    requires n.Element? && Unmarked(n) && !Closed(reserved, n)
    requires inner == (n.tag == "template" && (n.loop.Some? || inTF))
    requires !(AllPass(reserved, n, inTF) && Worth(n))
    requires var m := MarkStatic(reserved, n, inTF); !(m.marks.isStatic && Worth(m))
    requires forall i :: 0 <= i < |n.children| ==>
               (Fine(MarkRoots(MarkStatic(reserved, n.children[i], inner), inFor || n.loop.Some?)) <==>
                inFor || n.loop.Some? || !Stale(reserved, n.children[i], inner))
    ensures Fine(MarkRoots(MarkStatic(reserved, n, inTF), inFor)) <==> inFor || !Stale(reserved, n, inTF)
  {
    hide AllPass, Stale;
    assert !StaleAt(reserved, n, inTF, []);
    StaleBelow(reserved, n, inTF, inner);
    var kids := MarkStaticAll(reserved, n.children, inner);
    UnmarkedNoRootsBlocks(n.blocks, inFor);
    NoRootsFineBlocks(MarkRootsBlocks(n.blocks, inFor));
    FineAllAt(reserved, n.children, inner, inFor || n.loop.Some?);
    assert Fine(MarkRoots(MarkStatic(reserved, n, inTF), inFor)) <==>
        FineAll(MarkRootsAll(kids, inFor || n.loop.Some?));
  }

  /**
   Rendering with hoisted, reused static trees gives what the template means, for every sequence of states and up
   to the marks, exactly when the template has no static sub-tree outside v-for, worth hoisting, with a slot in it.
   */
  lemma HoistingExact(reserved: Platform, root: Node)
    requires Unmarked(root) && PreRaw(root)
    ensures !Stale(reserved, root, false) <==>
            forall ws: seq<World>, k: nat :: k < |ws| ==> RendersTrue(reserved, root, ws, k)
  {
    hide Stale, Fine;
    FineExact(reserved, root, false, false);
    if Fine(Optimize(reserved, root)) {
      forall ws: seq<World>, k: nat | k < |ws|
        ensures RendersTrue(reserved, root, ws, k)
      {
        HoistingCorrect(reserved, root, ws, k);
      }
    } else {
      HoistingStale(reserved, root);
      assert !RendersTrue(reserved, root, [Plain(Some("a")), Plain(None)], 1);
    }
  }

  ghost predicate RendersTrue(reserved: Platform, root: Node, ws: seq<World>, k: nat)
    requires k < |ws|
  {
    var o := Compile(reserved, root);
    EraseAll(Renders(o.code, o.fns, ws, map[])[k]) == Direct(root, ws[k], [])
  }

  /** Some element with v-pre is a slot, or one the optimizer does not look into with a slot inside. */
  predicate PreSlot(reserved: Platform, n: Node) {
    && n.Element?
    && ((n.pre && (n.tag == "slot" || (Closed(reserved, n) && HasSlot(n)))) || AnyPreSlot(reserved, n.children))
  }

  predicate AnyPreSlot(reserved: Platform, ns: seq<Node>) {
    ns != [] && (PreSlot(reserved, ns[0]) || AnyPreSlot(reserved, ns[1..]))
  }

  lemma {:induction false} AnyPreSlotAt(reserved: Platform, ns: seq<Node>, i: nat)
    requires i < |ns| && PreSlot(reserved, ns[i])
    ensures AnyPreSlot(reserved, ns)
  {
    if i > 0 {
      AnyPreSlotAt(reserved, ns[1..], i - 1);
    }
  }

  /** A slot passes as static only by its own v-pre or that of a component around it. */
  lemma {:induction false} SlotNeedsPre(reserved: Platform, n: Node, inTF: bool)
    requires AllPass(reserved, n, inTF) && HasSlot(n)
    ensures PreSlot(reserved, n)
    decreases n
  {
    hide Passes, AllPass;
    AllPassSelf(reserved, n, inTF);
    if n.tag != "slot" && !Closed(reserved, n) {
      SlotBelow(n);
      var inner := n.tag == "template" && (n.loop.Some? || inTF);
      var i :| 0 <= i < |n.children| && HasSlot(n.children[i]);
      AllPassChild(reserved, n, inTF, i);
      SlotNeedsPre(reserved, n.children[i], inner);
      AnyPreSlotAt(reserved, n.children, i);
    }
  }

  lemma AllPassSelf(reserved: Platform, n: Node, inTF: bool)
    requires AllPass(reserved, n, inTF)
    ensures IsStatic(reserved, n, inTF)
  {
    assert Passes(reserved, n, inTF, []);
  }

  lemma AllPassChild(reserved: Platform, n: Node, inTF: bool, i: nat)
    requires AllPass(reserved, n, inTF) && n.Element? && !Closed(reserved, n) && i < |n.children|
    ensures AllPass(reserved, n.children[i], n.tag == "template" && (n.loop.Some? || inTF))
  {
    hide Passes;
    ChildrenPass(reserved, n, inTF, n.tag == "template" && (n.loop.Some? || inTF));
  }

  lemma SlotBelow(n: Node)
    requires HasSlot(n) && n.Element? && n.tag != "slot"
    ensures exists i :: 0 <= i < |n.children| && HasSlot(n.children[i])
  {
    AnySlotAt(n.children);
  }

  lemma {:induction false} PreSlotAbove(reserved: Platform, n: Node, inTF: bool, path: seq<nat>)
    requires NodeAt(reserved, n, inTF, path).Some? && PreSlot(reserved, NodeAt(reserved, n, inTF, path).value.0)
    ensures PreSlot(reserved, n)
    decreases |path|
  {
    if path != [] {
      PreSlotAbove(reserved, n.children[path[0]], n.tag == "template" && (n.loop.Some? || inTF), path[1..]);
      AnyPreSlotAt(reserved, n.children, path[0]);
    }
  }

  /** So a template without such an element always renders what it means. */
  lemma WithoutPreSlots(reserved: Platform, root: Node, ws: seq<World>, k: nat)
    requires Unmarked(root) && PreRaw(root) && !PreSlot(reserved, root) && k < |ws|
    ensures RendersTrue(reserved, root, ws, k)
  {
    hide AllPass, RendersTrue, Unmarked, PreRaw;
    forall path
      ensures !StaleAt(reserved, root, false, path)
    {
      if StaleAt(reserved, root, false, path) {
        var x := NodeAt(reserved, root, false, path).value;
        SlotNeedsPre(reserved, x.0, x.1);
        PreSlotAbove(reserved, root, false, path);
      }
    }
    HoistingExact(reserved, root);
  }

  lemma Single(n: Node)
    ensures Unmarked(n) ==> UnmarkedAll([n])
    ensures PreRaw(n) ==> PreRawAll([n])
    ensures Quiet(n) ==> QuietAll([n])
  {
    assert [n][1..] == [];
  }

  /** Such a template: a slot with v-pre, inside ordinary elements. */
  lemma PreSlotIsStale(reserved: Platform)
    requires reserved("div") && reserved("p")
    ensures var none := Marks(false, false, false);
            var p := Element("p", "", false, [], false, None, None, [], NoMore, none);
            var slot := Element("slot", "", true, [], false, None, None, [p], NoMore, none);
            var div := Element("div", "", false, [], false, None, None, [slot], NoMore, none);
            Unmarked(div) && PreRaw(div) && StaleAt(reserved, div, false, [])
  {
    var none := Marks(false, false, false);
    var p := Element("p", "", false, [], false, None, None, [], NoMore, none);
    var slot := Element("slot", "", true, [], false, None, None, [p], NoMore, none);
    var div := Element("div", "", false, [], false, None, None, [slot], NoMore, none);
    var p' := MarkStatic(reserved, p, false);
    assert MarkStaticAll(reserved, [p], false) == [p'];
    var slot' := MarkStatic(reserved, slot, false);
    assert IsMarked(p') && slot' == slot.(children := [p'], marks := none.(isStatic := true));
    assert MarkStaticAll(reserved, [slot], false) == [slot'];
    var div' := MarkStatic(reserved, div, false);
    assert div' == div.(children := [slot'], marks := none.(isStatic := true));
    MarkStaticExact(reserved, div, false);
    assert HasSlot(slot) && AnySlot([slot]);
    assert Unmarked(p) && PreRaw(p) && Quiet(p);
    Single(p);
    assert Unmarked(slot) && PreRaw(slot);
    Single(slot);
  }

  // ---------- the compiler and the instance ----------

  /** The code generator, which collects static render functions as it goes. */
  class Generator {
    var staticRenderFns: seq<Code>

    constructor ()
      ensures staticRenderFns == []
    {
      staticRenderFns := [];
    }

    /** genElement and genNode */
    method GenNode(el: Node) returns (c: Code)
      modifies this
      ensures c == Gen(el, |old(staticRenderFns)|).code
      ensures staticRenderFns == old(staticRenderFns) + Gen(el, |old(staticRenderFns)|).fns
      decreases el, 5
    {
      match el
      case Text(t) => c := CText(t);
      case Interp(e) => c := CInterp(e);
      case Element(_, _, _, _, _, _, _, _, _, marks) =>
        c := GenFor(el);
        if marks.staticRoot {
          staticRenderFns := staticRenderFns + [c];
          c := Tree(|staticRenderFns| - 1, marks.staticInFor);
        }
    }

    method GenFor(el: Node) returns (c: Code)
      requires el.Element?
      modifies this
      ensures c == GenLoop(el, |old(staticRenderFns)|).code
      ensures staticRenderFns == old(staticRenderFns) + GenLoop(el, |old(staticRenderFns)|).fns
      decreases el, 4
    {
      c := GenIf(el);
      if el.loop.Some? {
        c := CFor(el.loop.value, c);
      }
    }

    method GenIf(el: Node) returns (c: Code)
      requires el.Element?
      modifies this
      ensures c == GenCond(el, |old(staticRenderFns)|).code
      ensures staticRenderFns == old(staticRenderFns) + GenCond(el, |old(staticRenderFns)|).fns
      decreases el, 3
    {
      var cs := GenChildren(el.children);
      c := if el.tag == "template" then CList(cs)
           else if el.tag == "slot" then CSlot(cs)
           else CElem(el.tag, el.attrs, el.pre, el.dynamic, cs);
      if el.cond.Some? {
        var e := GenIfConditions(el.blocks);
        c := CIf(el.cond.value, c, e);
      }
    }

    method GenIfConditions(bs: Blocks) returns (c: Code)
      modifies this
      ensures c == GenBlocks(bs, |old(staticRenderFns)|).code
      ensures staticRenderFns == old(staticRenderFns) + GenBlocks(bs, |old(staticRenderFns)|).fns
      decreases bs, 0
    {
      match bs
      case NoMore => c := CEmpty;
      case Block(exp, node, rest) =>
        c := GenNode(node);
        if exp.Some? {
          var e := GenIfConditions(rest);
          c := CIf(exp.value, c, e);
        }
    }

    method GenChildren(els: seq<Node>) returns (cs: seq<Code>)
      modifies this
      ensures cs == GenAll(els, |old(staticRenderFns)|).code
      ensures staticRenderFns == old(staticRenderFns) + GenAll(els, |old(staticRenderFns)|).fns
      decreases els, 0
    {
      if els == [] {
        cs := [];
      } else {
        var c := GenNode(els[0]);
        var rest := GenChildren(els[1..]);
        cs := [c] + rest;
      }
    }
  }

  /** A component instance: its compiled functions and the static trees it keeps. */
  class Instance {
    const fns: seq<Code>
    var staticTrees: Trees

    constructor (fns: seq<Code>)
      ensures this.fns == fns && staticTrees == map[]
    {
      this.fns := fns;
      staticTrees := map[];
    }

    /** renderStatic */
    method RenderStatic(index: nat, inFor: bool, w: World) returns (tree: seq<VNode>)
      requires index < |fns| && Layered(fns)
      modifies this
      ensures Res(tree, staticTrees) == Exec(Tree(index, inFor), w, [], fns, index + 1, old(staticTrees))
      decreases index, fns[index], 3
    {
      if index in staticTrees && !inFor {
        return staticTrees[index];
      }
      tree := Run(fns[index], w, [], index);
      tree := Stamp(index, fns[index], tree);
      staticTrees := staticTrees[index := tree];
    }

    /** Running generated code that uses static trees below lim. */
    method Run(c: Code, w: World, st: seq<nat>, ghost lim: nat) returns (tree: seq<VNode>)
      requires lim <= |fns| && Layered(fns) && Within(c, 0, lim)
      modifies this
      ensures Res(tree, staticTrees) == Exec(c, w, st, fns, lim, old(staticTrees))
      decreases lim, c, 0
    {
      match c
      case CText(t) => tree := [VText(t)];
      case CInterp(e) => tree := [VText(w.text(e, st))];
      case CElem(tag, attrs, pre, dynamic, children) =>
        tree := RunAll(children, w, st, lim);
        tree := [VElem(tag, attrs, pre, Values(w, dynamic, st), tree)];
      case CSlot(children) =>
        tree := RunAll(children, w, st, lim);
        if w.slot.Some? {
          tree := [VSlot(w.slot.value)];
        }
      case CList(children) => tree := RunAll(children, w, st, lim);
      case CFor(exp, body) =>
        tree := [];
        var n := w.count(exp, st);
        for k := 0 to n
          invariant Res(tree, staticTrees) == ExecLoop(body, w, st, k, fns, lim, old(staticTrees))
        {
          var t := Run(body, w, st + [k], lim);
          tree := tree + t;
        }
      case CIf(exp, yes, no) =>
        if w.truth(exp, st) {
          tree := Run(yes, w, st, lim);
        } else {
          tree := Run(no, w, st, lim);
        }
      case CEmpty => tree := [VEmpty];
      case Tree(i, inFor) => tree := RenderStatic(i, inFor, w);
    }

    method RunAll(cs: seq<Code>, w: World, st: seq<nat>, ghost lim: nat) returns (tree: seq<VNode>)
      requires lim <= |fns| && Layered(fns) && WithinAll(cs, 0, lim)
      modifies this
      ensures Res(tree, staticTrees) == ExecAll(cs, w, st, fns, lim, old(staticTrees))
      decreases lim, cs, 0
    {
      if cs == [] {
        tree := [];
      } else {
        tree := Run(cs[0], w, st, lim);
        var rest := RunAll(cs[1..], w, st, lim);
        tree := tree + rest;
      }
    }
  }

  /** A component's life: its template is compiled, and rendered in each state of the component in turn. */
  method RenderAll(reserved: Platform, root: Node, ws: seq<World>) returns (trees: seq<seq<VNode>>)
    requires Unmarked(root) && PreRaw(root)
    ensures |trees| == |ws|
    ensures !Stale(reserved, root, false) ==> forall k :: 0 <= k < |ws| ==>
            EraseAll(trees[k]) == Direct(root, ws[k], [])
    ensures Stale(reserved, root, false) && ws == [Plain(Some("a")), Plain(None)] ==>
              EraseAll(trees[1]) != Direct(root, ws[1], [])
  {
    hide Stale, Unmarked, PreRaw, Layered, Within, Exec, MarkStatic, MarkRoots, Fine, Gen, Direct, EraseAll, Plain;
    var gen := new Generator();
    var code := gen.GenNode(Optimize(reserved, root));
    ghost var o := Compile(reserved, root);
    assert code == o.code && gen.staticRenderFns == o.fns;
    var inst := new Instance(gen.staticRenderFns);
    trees := [];
    for i := 0 to |ws|
      invariant |trees| == i && trees + Renders(code, inst.fns, ws[i..], inst.staticTrees) ==
                Renders(o.code, o.fns, ws, map[])
    {
      var tree := inst.Run(code, ws[i], [], |inst.fns|);
      trees := trees + [tree];
    }
    HoistingExact(reserved, root);
    assert forall k: nat :: k < |ws| && RendersTrue(reserved, root, ws, k) ==>
        EraseAll(trees[k]) == Direct(root, ws[k], []);
    if Stale(reserved, root, false) {
      FineExact(reserved, root, false, false);
      HoistingStale(reserved, root);
    }
  }
}
