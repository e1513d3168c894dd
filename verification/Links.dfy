/**
 Singly linked lists threaded through one table of records, as the chains and the free
 list of refer_code/apue.2e/db/db.c are.  A pointer is 0 for the end of a list or i + 1
 for record i.  Every record is on exactly one list or in somebody's hand.
 */
module Links {
  import opened Basics

  datatype Links = Threads(head: seq<nat>, next: seq<nat>, lists: seq<seq<nat>>, owner: seq<nat>) {
    /** The owner value of a record that is on no list. */
    function Hand(): nat { |lists| }
  }

  /** A pointer's place: a list head or a record's next field. */
  datatype Place = Head(s: nat) | Next(i: nat)

  function To(l: seq<nat>, k: nat): nat {
    if k < |l| then l[k] + 1 else 0
  }

  ghost predicate Sized(L: Links) {
    |L.lists| == |L.head| && |L.owner| == |L.next|
  }

  /** Position k of list s holds a record of that list whose pointer leads to position k + 1. */
  ghost predicate Entry(L: Links, s: nat, k: nat)
    requires Sized(L) && s < |L.lists| && k < |L.lists[s]|
  {
    && L.lists[s][k] < |L.next|
    && L.owner[L.lists[s][k]] == s
    && L.next[L.lists[s][k]] == To(L.lists[s], k + 1)
  }

  ghost predicate Entries(L: Links)
    requires Sized(L)
  {
    forall s: nat, k: nat :: s < |L.lists| && k < |L.lists[s]| ==> Entry(L, s, k)
  }

  ghost predicate Acyclic(L: Links) {
    forall s, j, k :: 0 <= s < |L.lists| && 0 <= j < k < |L.lists[s]| ==> L.lists[s][j] != L.lists[s][k]
  }

  ghost predicate Covered(L: Links) {
    forall i :: 0 <= i < |L.owner| ==>
                  L.owner[i] <= L.Hand() && (L.owner[i] < L.Hand() ==> i in L.lists[L.owner[i]])
  }

  ghost predicate HeadsOk(L: Links)
    requires Sized(L)
  {
    forall s :: 0 <= s < |L.lists| ==> L.head[s] == To(L.lists[s], 0)
  }

  /** Every list is acyclic and ends, every record is on one list or in a hand, and the pointers spell the lists. */
  ghost predicate Linked(L: Links) {
    Sized(L) && Entries(L) && Acyclic(L) && Covered(L) && HeadsOk(L)
  }

  /** The place of the pointer to position k of list s. */
  function PlaceOf(L: Links, s: nat, k: nat): Place
    requires s < |L.lists| && k <= |L.lists[s]|
  {
    if k == 0 then Head(s) else Next(L.lists[s][k - 1])
  }

  ghost predicate PlaceOk(L: Links, p: Place) {
    match p
    case Head(s) => s < |L.head|
    case Next(i) => i < |L.next|
  }

  function Set(L: Links, p: Place, v: nat): Links
    requires PlaceOk(L, p)
  {
    match p
    case Head(s) => L.(head := L.head[s := v])
    case Next(i) => L.(next := L.next[i := v])
  }

  function Get(L: Links, p: Place): nat
    requires PlaceOk(L, p)
  {
    match p
    case Head(s) => L.head[s]
    case Next(i) => L.next[i]
  }

  lemma PlaceHolds(L: Links, s: nat, k: nat)
    requires Linked(L) && s < |L.lists| && k <= |L.lists[s]|
    ensures PlaceOk(L, PlaceOf(L, s, k)) && Get(L, PlaceOf(L, s, k)) == To(L.lists[s], k)
  {
    if k > 0 {
      assert Entry(L, s, k - 1);
    }
  }

  /** Unlinking: the pointer to the record is given the record's own pointer. */
  function Unlink(L: Links, s: nat, k: nat): Links
    requires s < |L.lists| && k < |L.lists[s]| && PlaceOk(L, PlaceOf(L, s, k))
    requires L.lists[s][k] < |L.next| == |L.owner|
  {
    var i := L.lists[s][k];
    Set(L, PlaceOf(L, s, k), L.next[i]).(
    lists := L.lists[s := Omit(L.lists[s], k)], owner := L.owner[i := L.Hand()])
  }

  /** Position n of the shortened list was this position before. */
  function Was(k: nat, n: nat): nat {
    if n < k then n else n + 1
  }

  lemma OmitAt(l: seq<nat>, k: nat, n: nat)
    requires k < |l| && n < |l| - 1
    ensures Omit(l, k)[n] == l[Was(k, n)] && Was(k, n) != k
    ensures To(Omit(l, k), n + 1) == if n + 1 == k then To(l, k + 1) else To(l, Was(k, n) + 1)
  {
  }

  /** A record of a list after the unlinking: where it was, and its pointer. */
  lemma UnlinkEntry(L: Links, s: nat, k: nat, t: nat, n: nat)
    requires Linked(L) && s < |L.lists| && k < |L.lists[s]|
    requires PlaceOk(L, PlaceOf(L, s, k)) && L.lists[s][k] < |L.next|
    requires t < |L.lists| && n < |Unlink(L, s, k).lists[t]|
    ensures Entry(Unlink(L, s, k), t, n)
    ensures t == s ==> Unlink(L, s, k).lists[t][n] == L.lists[t][Was(k, n)] && Was(k, n) < |L.lists[t]|
    ensures t != s ==> Unlink(L, s, k).lists[t] == L.lists[t]
  {
    var l := L.lists[s];
    assert Entry(L, s, k);
    if k > 0 {
      assert Entry(L, s, k - 1);
    }
    if t == s {
      OmitAt(l, k, n);
      assert Entry(L, s, Was(k, n));
    } else {
      assert Entry(L, t, n);
    }
  }

  lemma UnlinkCovered(L: Links, s: nat, k: nat, j: nat)
    requires Linked(L) && s < |L.lists| && k < |L.lists[s]|
    requires j < |L.owner| && j != L.lists[s][k] && L.owner[j] < L.Hand()
    ensures j in L.lists[s := Omit(L.lists[s], k)][L.owner[j]]
  {
    if L.owner[j] == s {
      var n :| 0 <= n < |L.lists[s]| && L.lists[s][n] == j;
      OmitAt(L.lists[s], k, if n < k then n else n - 1);
    }
  }

  /** Unlinking keeps the structure; the record is then in a hand. */
  lemma UnlinkKeeps(L: Links, s: nat, k: nat)
    requires Linked(L) && s < |L.lists| && k < |L.lists[s]|
    ensures PlaceOk(L, PlaceOf(L, s, k)) && L.lists[s][k] < |L.next|
    ensures Linked(Unlink(L, s, k))
  {
    PlaceHolds(L, s, k);
    assert Entry(L, s, k);
    var L' := Unlink(L, s, k);
    assert Sized(L') && |L'.lists| == |L.lists| && |L'.next| == |L.next| && HeadsOk(L');
    forall t: nat, n: nat | t < |L'.lists| && n < |L'.lists[t]|
      ensures Entry(L', t, n)
    {
      UnlinkEntry(L, s, k, t, n);
    }
    forall t, m, n | 0 <= t < |L'.lists| && 0 <= m < n < |L'.lists[t]|
      ensures L'.lists[t][m] != L'.lists[t][n]
    {
      UnlinkEntry(L, s, k, t, m);
      UnlinkEntry(L, s, k, t, n);
    }
    forall j | 0 <= j < |L'.owner| && L'.owner[j] < L'.Hand()
      ensures j in L'.lists[L'.owner[j]]
    {
      UnlinkCovered(L, s, k, j);
    }
  }

  /** Putting a record in hand, whose next already is the list's head, on the front of list s. */
  function Push(L: Links, s: nat, i: nat): Links
    requires s < |L.lists| == |L.head| && i < |L.owner|
  {
    L.(head := L.head[s := i + 1], lists := L.lists[s := [i] + L.lists[s]], owner := L.owner[i := s])
  }

  lemma {:induction false} PushKeeps(L: Links, s: nat, i: nat)
    requires Linked(L) && s < |L.lists| && i < |L.owner| && L.owner[i] == L.Hand() && L.next[i] == L.head[s]
    ensures Linked(Push(L, s, i))
  {
    var (l, L') := (L.lists[s], Push(L, s, i));
    var l' := [i] + l;
    forall t: nat, k: nat | t < |L'.lists| && k < |L'.lists[t]|
      ensures Entry(L', t, k)
    {
      if t != s {
        assert Entry(L, t, k);
      } else if k > 0 {
        assert l'[k] == l[k - 1] && Entry(L, s, k - 1);
      }
    }
    forall t, j, k | 0 <= t < |L'.lists| && 0 <= j < k < |L'.lists[t]|
      ensures L'.lists[t][j] != L'.lists[t][k]
    {
      if t == s && j == 0 {
        assert l'[k] == l[k - 1] && Entry(L, s, k - 1);
      }
    }
    forall j | 0 <= j < |L'.owner| && L'.owner[j] < L'.Hand()
      ensures j in L'.lists[L'.owner[j]]
    {
      if j != i {
        assert j in L.lists[L.owner[j]];
      }
    }
  }

  /** A record in hand may be given any next pointer. */
  lemma HandNext(L: Links, i: nat, v: nat)
    requires Linked(L) && i < |L.owner| && L.owner[i] == L.Hand()
    ensures Linked(Set(L, Next(i), v))
  {
    forall s: nat, k: nat | s < |L.lists| && k < |L.lists[s]|
      ensures Entry(Set(L, Next(i), v), s, k)
    {
      assert Entry(L, s, k);
    }
  }

  /** A new record starts in a hand. */
  function Grow(L: Links, v: nat): Links {
    L.(next := L.next + [v], owner := L.owner + [L.Hand()])
  }

  lemma GrowKeeps(L: Links, v: nat)
    requires Linked(L)
    ensures Linked(Grow(L, v))
  {
    forall s: nat, k: nat | s < |L.lists| && k < |L.lists[s]|
      ensures Entry(Grow(L, v), s, k)
    {
      assert Entry(L, s, k);
    }
  }

  /** No record is on two lists. */
  lemma OneList(L: Links, s: nat, t: nat, i: nat)
    requires Linked(L) && s < |L.lists| && t < |L.lists| && i in L.lists[s] && i in L.lists[t]
    ensures s == t
  {
    var j, k :| 0 <= j < |L.lists[s]| && 0 <= k < |L.lists[t]| && L.lists[s][j] == i == L.lists[t][k];
    assert Entry(L, s, j) && Entry(L, t, k);
  }

  /** Moving position k of one list to the front of another. */
  function Moved(L: Links, from: nat, k: nat, to: nat): Links
    requires from < |L.lists| && k < |L.lists[from]| && PlaceOk(L, PlaceOf(L, from, k))
    requires to < |L.lists| == |L.head| && L.lists[from][k] < |L.next| == |L.owner|
  {
    var i := L.lists[from][k];
    Push(Set(Unlink(L, from, k), Next(i), L.head[to]), to, i)
  }

  /** A move keeps the structure and writes three pointers: the way to the record, its own, and the new head. */
  lemma MovedKeeps(L: Links, from: nat, k: nat, to: nat)
    requires Linked(L) && from < |L.lists| && k < |L.lists[from]| && to < |L.lists| && from != to
    ensures PlaceOk(L, PlaceOf(L, from, k)) && L.lists[from][k] < |L.next|
    ensures var (i, M) := (L.lists[from][k], Moved(L, from, k, to));
            && Linked(M)
            && M.owner == L.owner[i := to]
            && M.head == Set(Set(L, PlaceOf(L, from, k), L.next[i]), Head(to), i + 1).head
            && M.next == Set(Set(L, PlaceOf(L, from, k), L.next[i]), Next(i), L.head[to]).next
            && (k > 0 ==> L.lists[from][k - 1] != i)
  {
    UnlinkKeeps(L, from, k);
    var (i, U) := (L.lists[from][k], Unlink(L, from, k));
    HandNext(U, i, L.head[to]);
    PushKeeps(Set(U, Next(i), L.head[to]), to, i);
  }

  /** The three pointer writes of a move, with the old place written last (deletion) or first (reuse). */
  lemma MoveOrder(L: Links, from: nat, k: nat, to: nat, i: nat, place: Place)
    requires Linked(L) && from < |L.lists| && k < |L.lists[from]| && to < |L.lists| && from != to
    requires i == L.lists[from][k] && place == PlaceOf(L, from, k)
    ensures PlaceOk(L, place) && i < |L.next|
    ensures var M := Moved(L, from, k, to);
            var D := Set(Set(Set(L, Next(i), L.head[to]), Head(to), i + 1), place, L.next[i]);
            D.head == M.head && D.next == M.next
    ensures var M := Moved(L, from, k, to);
            var R := Set(Set(Set(L, place, L.next[i]), Next(i), L.head[to]), Head(to), i + 1);
            R.head == M.head && R.next == M.next
  {
    MovedKeeps(L, from, k, to);
  }
}
