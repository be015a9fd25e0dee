/** Counting the elements of a sequence that satisfy a predicate. */
module Counting {

  function Count<T>(has: T -> bool, s: seq<T>): nat {
    if s == [] then 0 else (if has(s[0]) then 1 else 0) + Count(has, s[1..])
  }

  function Without<T>(s: seq<T>, i: nat): seq<T>
    requires i < |s|
  {
    s[..i] + s[i + 1..]
  }

  lemma {:induction false} CountConcat<T>(has: T -> bool, a: seq<T>, b: seq<T>)
    ensures Count(has, a + b) == Count(has, a) + Count(has, b)
  {
    if a == [] {
      assert a + b == b;
    } else {
      CountConcat(has, a[1..], b);
      assert (a + b)[1..] == a[1..] + b;
    }
  }

  lemma CountSingle<T>(has: T -> bool, x: T)
    ensures Count(has, [x]) == if has(x) then 1 else 0
  {
    assert [x][1..] == [];
  }

  lemma CountAppend<T>(has: T -> bool, a: seq<T>, x: T)
    ensures Count(has, a + [x]) == Count(has, a) + if has(x) then 1 else 0
  {
    hide Count;
    CountConcat(has, a, [x]);
    CountSingle(has, x);
  }

  lemma CountWithout<T>(has: T -> bool, s: seq<T>, i: nat)
    requires i < |s|
    ensures Count(has, s) == Count(has, Without(s, i)) + if has(s[i]) then 1 else 0
  {
    hide Count;
    assert s == s[..i] + ([s[i]] + s[i + 1..]);
    CountConcat(has, s[..i], [s[i]] + s[i + 1..]);
    CountConcat(has, [s[i]], s[i + 1..]);
    CountConcat(has, s[..i], s[i + 1..]);
    CountSingle(has, s[i]);
  }

  lemma CountUpdate<T>(has: T -> bool, s: seq<T>, i: nat, x: T)
    requires i < |s| && has(x) == has(s[i])
    ensures Count(has, s[i := x]) == Count(has, s)
  {
    hide Count;
    CountWithout(has, s, i);
    CountWithout(has, s[i := x], i);
    assert Without(s[i := x], i) == Without(s, i);
  }

  lemma CountOne<T>(has: T -> bool, s: seq<T>, i: nat)
    requires i < |s| && has(s[i])
    ensures Count(has, s) >= 1
  {
    hide Count;
    CountWithout(has, s, i);
  }

  lemma CountTwo<T>(has: T -> bool, s: seq<T>, i: nat, j: nat)
    requires i < j < |s| && has(s[i]) && has(s[j])
    ensures Count(has, s) >= 2
  {
    hide Count;
    CountWithout(has, s, j);
    CountOne(has, Without(s, j), i);
  }

  lemma {:induction false} CountNothing<T>(has: T -> bool, s: seq<T>)
    requires forall i :: 0 <= i < |s| ==> !has(s[i])
    ensures Count(has, s) == 0
  {
    if s == [] {
    } else {
      CountNothing(has, s[1..]);
    }
  }

  lemma CountSet<T>(has: T -> bool, s: seq<T>, i: nat, x: T)
    requires i < |s|
    ensures Count(has, s[i := x]) == Count(has, s) - (if has(s[i]) then 1 else 0) + (if has(x) then 1 else 0)
  {
    hide Count;
    CountWithout(has, s, i);
    CountWithout(has, s[i := x], i);
    assert Without(s[i := x], i) == Without(s, i);
  }

  lemma {:induction false} CountLess<T, U>(p: T -> bool, q: U -> bool, a: seq<T>, b: seq<U>)
    requires |a| == |b|
    requires forall i :: 0 <= i < |a| && p(a[i]) ==> q(b[i])
    ensures Count(p, a) <= Count(q, b)
  {
    if a == [] {
    } else {
      CountLess(p, q, a[1..], b[1..]);
    }
  }
}
