/** Datatypes shared by every model, and counting over sequences. */
module Basics {

  /** Broker ids are Go uint32 values. */
  type Id = i: int | 0 <= i < 0x1_0000_0000

  type Byte = b: int | 0 <= b < 256

  datatype Option<+T> = None | Some(value: T)

  datatype Result<+T, +E> = Ok(value: T) | Err(error: E)

  function Bit(b: bool): (n: nat)
    ensures n <= 1
  {
    if b then 1 else 0
  }

  /** How many elements of `s` satisfy `p`. */
  function CountIf<T>(s: seq<T>, p: T -> bool): nat
  {
    |set i | 0 <= i < |s| && p(s[i])|
  }

  lemma CountAppend<T>(s: seq<T>, x: T, p: T -> bool)
    ensures CountIf(s + [x], p) == CountIf(s, p) + Bit(p(x))
  {
    var before, after := set i | 0 <= i < |s| && p(s[i]), set i | 0 <= i < |s| + 1 && p((s + [x])[i]);
    assert after == before + if p(x) then {|s|} else {};
  }

  function CountOthers<T>(s: seq<T>, i: nat, p: T -> bool): set<nat>
  {
    set j: nat | 0 <= j < |s| && j != i && p(s[j])
  }

  lemma CountAt<T>(s: seq<T>, i: nat, p: T -> bool)
    requires i < |s|
    ensures CountIf(s, p) == |CountOthers(s, i, p)| + Bit(p(s[i]))
  {
    assert (set j | 0 <= j < |s| && p(s[j])) == CountOthers(s, i, p) + if p(s[i]) then {i} else {};
  }

  lemma CountUpdate<T>(s: seq<T>, i: nat, x: T, p: T -> bool)
    requires i < |s|
    ensures CountIf(s[i := x], p) + Bit(p(s[i])) == CountIf(s, p) + Bit(p(x))
  {
    CountAt(s, i, p);
    CountAt(s[i := x], i, p);
    assert CountOthers(s, i, p) == CountOthers(s[i := x], i, p);
  }

  lemma {:induction false} CountPrepend<T>(x: T, s: seq<T>, p: T -> bool)
    ensures CountIf([x] + s, p) == Bit(p(x)) + CountIf(s, p)
  {
    if s == [] {
      CountAppend([], x, p);
      assert [x] + s == [] + [x];
    } else {
      var n := |s| - 1;
      assert [x] + s == ([x] + s[..n]) + [s[n]] && s == s[..n] + [s[n]];
      CountPrepend(x, s[..n], p);
      CountAppend([x] + s[..n], s[n], p);
      CountAppend(s[..n], s[n], p);
    }
  }

  lemma CountPrefix<T>(s: seq<T>, t: seq<T>, p: T -> bool)
    requires s <= t
    ensures CountIf(s, p) <= CountIf(t, p)
  {
    SubsetSize(set i | 0 <= i < |s| && p(s[i]), set i | 0 <= i < |t| && p(t[i]));
  }

  lemma CountShorter<T>(s: seq<T>, t: seq<T>, p: T -> bool)
    requires s <= t && CountIf(s, p) < CountIf(t, p)
    ensures |s| < |t|
  {
    assert |s| == |t| ==> s == t;
  }

  lemma SubsetSize(a: set<int>, b: set<int>)
    requires a <= b
    ensures |a| <= |b|
  {
    assert b == a + (b - a);
  }

  lemma CountMember<T>(s: seq<T>, i: nat, p: T -> bool)
    requires i < |s| && p(s[i])
    ensures CountIf(s, p) >= 1
  {
    SubsetSize({i}, set j | 0 <= j < |s| && p(s[j]));
  }

  /** Two distinct matching positions count as two. */
  lemma CountPair<T>(s: seq<T>, i: nat, j: nat, p: T -> bool)
    requires i < j < |s| && p(s[i]) && p(s[j])
    ensures CountIf(s, p) >= 2
  {
    SubsetSize({i, j}, set k | 0 <= k < |s| && p(s[k]));
  }

  lemma CountSame<T>(s: seq<T>, p: T -> bool, q: T -> bool)
    requires forall i :: 0 <= i < |s| ==> p(s[i]) == q(s[i])
    ensures CountIf(s, p) == CountIf(s, q)
  {
    assert (set i | 0 <= i < |s| && p(s[i])) == (set i | 0 <= i < |s| && q(s[i]));
  }

  lemma CountNone<T>(s: seq<T>, p: T -> bool)
    requires CountIf(s, p) == 0
    ensures forall i :: 0 <= i < |s| ==> !p(s[i])
  {
    forall i | 0 <= i < |s| ensures !p(s[i]) {
      if p(s[i]) { CountMember(s, i, p); }
    }
  }

  lemma CountSome<T>(s: seq<T>, p: T -> bool) returns (i: nat)
    requires CountIf(s, p) > 0
    ensures i < |s| && p(s[i])
  {
    var all := set j | 0 <= j < |s| && p(s[j]);
    assert all != {};
    i :| i in all;
  }

  lemma CountAnother<T>(s: seq<T>, i: nat, p: T -> bool) returns (j: nat)
    requires i < |s| && CountIf(s, p) > 1
    ensures j < |s| && j != i && p(s[j])
  {
    CountAt(s, i, p);
    assert CountOthers(s, i, p) != {};
    j :| j in CountOthers(s, i, p);
  }

  // ---------------------------------------------------------------- pieces in a row

  function Concat<T>(pieces: seq<seq<T>>): seq<T>
  {
    if pieces == [] then [] else Concat(pieces[..|pieces| - 1]) + pieces[|pieces| - 1]
  }

  lemma ConcatNext<T>(pieces: seq<seq<T>>, n: nat)
    requires n < |pieces|
    ensures Concat(pieces[..n + 1]) == Concat(pieces[..n]) + pieces[n]
  {
    assert pieces[..n + 1][..n] == pieces[..n];
  }

  lemma ConcatAppend<T>(pieces: seq<seq<T>>, piece: seq<T>)
    ensures Concat(pieces + [piece]) == Concat(pieces) + piece
  {
    assert (pieces + [piece])[..|pieces|] == pieces;
  }
}
