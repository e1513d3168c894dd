/** Concatenations of texts and in-place overwrites of them: a file as a row of fields. */
module Texts {

  function Cat(ts: seq<string>): string {
    if ts == [] then "" else Cat(ts[..|ts| - 1]) + ts[|ts| - 1]
  }

  /** Total length of the first i texts: the offset of text i. */
  function At(ts: seq<string>, i: nat): nat
    requires i <= |ts|
  {
    if i == 0 then 0 else At(ts, i - 1) + |ts[i - 1]|
  }

  /** Overwriting |t| bytes of s from offset off. */
  function Splice(s: string, off: nat, t: string): (r: string)
    requires off + |t| <= |s|
    ensures |r| == |s|
  {
    s[..off] + t + s[off + |t|..]
  }

  lemma SpliceAfter(h: string, s: string, off: nat, t: string)
    requires off + |t| <= |s|
    ensures Splice(h + s, |h| + off, t) == h + Splice(s, off, t)
  {
    assert (h + s)[..|h| + off] == h + s[..off];
    assert (h + s)[|h| + off + |t|..] == s[off + |t|..];
    assert h + s[..off] + t + s[off + |t|..] == h + (s[..off] + t + s[off + |t|..]);
  }

  lemma SpliceBefore(s: string, z: string, off: nat, t: string)
    requires off + |t| <= |s|
    ensures Splice(s + z, off, t) == Splice(s, off, t) + z
  {
    assert (s + z)[..off] == s[..off];
    assert (s + z)[off + |t|..] == s[off + |t|..] + z;
    assert s[..off] + t + (s[off + |t|..] + z) == (s[..off] + t + s[off + |t|..]) + z;
  }

  lemma SliceAfter(h: string, s: string, a: nat, b: nat)
    requires a <= b <= |s|
    ensures (h + s)[|h| + a..|h| + b] == s[a..b]
  {
  }

  lemma SliceBefore(s: string, z: string, a: nat, b: nat)
    requires a <= b <= |s|
    ensures (s + z)[a..b] == s[a..b]
  {
  }

  lemma SliceOfSlice(s: string, lo: nat, hi: nat, a: nat, b: nat)
    requires lo <= hi <= |s| && a <= b <= hi - lo
    ensures s[lo..hi][a..b] == s[lo + a..lo + b]
  {
    var t := s[lo..hi];
    forall k | 0 <= k < b - a
      ensures t[a..b][k] == s[lo + a..lo + b][k]
    {
      assert t[a..b][k] == t[a + k] == s[lo + (a + k)];
    }
  }

  lemma {:induction false} AtPrefix(ts: seq<string>, n: nat, i: nat)
    requires i <= n <= |ts|
    ensures At(ts[..n], i) == At(ts, i)
  {
    if i > 0 {
      AtPrefix(ts, n, i - 1);
    }
  }

  lemma {:induction false} AtMonotone(ts: seq<string>, i: nat, j: nat)
    requires i <= j <= |ts|
    ensures At(ts, i) <= At(ts, j)
    decreases j - i
  {
    if i < j {
      AtMonotone(ts, i, j - 1);
    }
  }

  lemma {:induction false} CatSize(ts: seq<string>)
    ensures |Cat(ts)| == At(ts, |ts|)
  {
    if ts != [] {
      CatSize(ts[..|ts| - 1]);
      AtPrefix(ts, |ts| - 1, |ts| - 1);
    }
  }

  /** Text i lies at its offset. */
  lemma {:induction false} CatAt(ts: seq<string>, i: nat)
    requires i < |ts|
    ensures At(ts, i) + |ts[i]| <= |Cat(ts)|
    ensures Cat(ts)[At(ts, i)..At(ts, i) + |ts[i]|] == ts[i]
  {
    var n := |ts| - 1;
    CatSize(ts[..n]);
    AtPrefix(ts, n, n);
    if i < n {
      CatAt(ts[..n], i);
      AtPrefix(ts, n, i);
    }
  }

  /** Offsets depend on the lengths alone. */
  lemma {:induction false} AtSameLengths(ts: seq<string>, us: seq<string>, i: nat)
    requires i <= |ts| && i <= |us|
    requires forall j :: 0 <= j < i ==> |ts[j]| == |us[j]|
    ensures At(ts, i) == At(us, i)
  {
    if i > 0 {
      AtSameLengths(ts, us, i - 1);
    }
  }

  /** Replacing a text by one of the same length is an overwrite at its offset. */
  lemma {:induction false} CatUpdate(ts: seq<string>, i: nat, t: string)
    requires i < |ts| && |t| == |ts[i]|
    ensures At(ts, i) + |t| <= |Cat(ts)|
    ensures Cat(ts[i := t]) == Splice(Cat(ts), At(ts, i), t)
  {
    CatAt(ts, i);
    var n := |ts| - 1;
    CatSize(ts[..n]);
    AtPrefix(ts, n, n);
    if i < n {
      CatUpdate(ts[..n], i, t);
      AtPrefix(ts, n, i);
      assert ts[i := t][..n] == ts[..n][i := t];
      SpliceBefore(Cat(ts[..n]), ts[n], At(ts, i), t);
    } else {
      assert ts[i := t][..n] == ts[..n];
      assert Cat(ts)[..At(ts, i)] == Cat(ts[..n]);
    }
  }

  /** Overwriting the front of a text leaves its rest. */
  lemma CatUpdateFront(ts: seq<string>, i: nat, p: string, p': string, rest: string)
    requires i < |ts| && ts[i] == p + rest && |p'| == |p|
    ensures At(ts, i) + |p'| <= |Cat(ts)|
    ensures Cat(ts)[At(ts, i)..At(ts, i) + |p|] == p
    ensures Cat(ts[i := p' + rest]) == Splice(Cat(ts), At(ts, i), p')
  {
    CatAt(ts, i);
    CatUpdate(ts, i, p' + rest);
    SpliceFront(Cat(ts), At(ts, i), p, p', rest);
  }

  lemma SpliceFront(s: string, off: nat, p: string, p': string, rest: string)
    requires |p'| == |p| && off + |p + rest| <= |s| && s[off..off + |p + rest|] == p + rest
    ensures s[off..off + |p|] == p
    ensures Splice(s, off, p' + rest) == Splice(s, off, p')
  {
    var m := off + |p|;
    assert s[off..off + |p + rest|][..|p|] == p;
    assert s[off..off + |p + rest|][|p|..] == rest;
    assert s[m..] == rest + s[m + |rest|..];
    assert s[..off] + (p' + rest) + s[m + |rest|..] == s[..off] + p' + (rest + s[m + |rest|..]);
  }

  lemma CatAppend(ts: seq<string>, t: string)
    ensures Cat(ts + [t]) == Cat(ts) + t
    ensures forall i :: 0 <= i <= |ts| ==> At(ts + [t], i) == At(ts, i)
  {
    assert (ts + [t])[..|ts|] == ts;
    forall i | 0 <= i <= |ts| ensures At(ts + [t], i) == At(ts, i) {
      AtSameLengths(ts + [t], ts, i);
    }
  }
}
