/** Sequences without repeats, and the first occurrences in a sequence, in order: Python's `dict.fromkeys`. */
module Distinct {

  predicate NoRepeats<T(==)>(s: seq<T>) {
    forall i, k :: 0 <= i < k < |s| ==> s[i] != s[k]
  }

  function FirstOccurrences<T(==)>(items: seq<T>): seq<T> {
    if items == [] then []
    else
      var n := |items| - 1;
      var before := FirstOccurrences(items[..n]);
      if items[n] in before then before else before + [items[n]]
  }

  lemma FirstOccurrencesNext<T>(items: seq<T>, x: T)
    ensures var before := FirstOccurrences(items);
            FirstOccurrences(items + [x]) == if x in before then before else before + [x]
    ensures FirstOccurrences<T>([]) == []
  {
    assert (items + [x])[..|items|] == items;
  }

  /** They are the items, each once. */
  lemma {:induction false} FirstOccurrencesAreTheItems<T>(items: seq<T>)
    ensures NoRepeats(FirstOccurrences(items))
    ensures forall x :: x in FirstOccurrences(items) <==> x in items
  {
    if items == [] {
    } else {
      var n := |items| - 1;
      FirstOccurrencesAreTheItems(items[..n]);
      assert items == items[..n] + [items[n]];
    }
  }

  /** What has no repeats stays as it is. */
  lemma {:induction false} FirstOccurrencesOfDistinct<T>(items: seq<T>)
    requires NoRepeats(items)
    ensures FirstOccurrences(items) == items
  {
    if items == [] {
    } else {
      var n := |items| - 1;
      FirstOccurrencesOfDistinct(items[..n]);
      assert items == items[..n] + [items[n]];
    }
  }

  /** Adding an item keeps what is there, in place. */
  lemma {:induction false} FirstOccurrencesGrow<T>(items: seq<T>, n: nat)
    requires n <= |items|
    ensures FirstOccurrences(items[..n]) <= FirstOccurrences(items)
    decreases |items| - n
  {
    if n < |items| {
      assert items[..n + 1][..n] == items[..n];
      FirstOccurrencesGrow(items, n + 1);
    } else {
      assert items[..n] == items;
    }
  }

  function Except<T(==)>(items: seq<T>, x: T): seq<T> {
    if items == [] then [] else (if items[0] == x then [] else [items[0]]) + Except(items[1..], x)
  }

  lemma {:induction false} ExceptAppend<T>(items: seq<T>, y: T, x: T)
    ensures Except(items + [y], x) == Except(items, x) + if y == x then [] else [y]
  {
    if items == [] {
      assert [y][1..] == [];
    } else {
      assert (items + [y])[1..] == items[1..] + [y];
      ExceptAppend(items[1..], y, x);
    }
  }

  lemma {:induction false} InExcept<T>(items: seq<T>, x: T, y: T)
    ensures y in Except(items, x) <==> y in items && y != x
  {
    if items == [] {
    } else {
      InExcept(items[1..], x, y);
      assert items == [items[0]] + items[1..];
    }
  }

  /** One item before others that have no repeats: it comes first, and is left out of the others. */
  lemma {:induction false} FirstOccurrencesCons<T>(x: T, items: seq<T>)
    requires NoRepeats(items)
    ensures FirstOccurrences([x] + items) == [x] + Except(items, x)
  {
    hide FirstOccurrences, Except, NoRepeats;
    if items == [] {
      FirstOccurrencesNext([], x);
      ExceptNone(x);
      assert [] + [x] == [x] && [x] + [] == [x];
    } else {
      var n := |items| - 1;
      var before, y := items[..n], items[n];
      assert items == before + [y];
      LastIsNew(before, y);
      FirstOccurrencesCons(x, before);
      var kept := Except(before, x);
      assert [x] + items == ([x] + before) + [y];
      FirstOccurrencesNext([x] + before, y);
      ExceptAppend(before, y, x);
      InExcept(before, x, y);
      assert y in [x] + kept <==> y == x;
      assert [x] + kept + [y] == [x] + (kept + [y]) && kept + [] == kept;
    }
  }

  lemma ExceptNone<T>(x: T)
    ensures Except([], x) == []
  {
  }

  lemma LastIsNew<T>(before: seq<T>, y: T)
    requires NoRepeats(before + [y])
    ensures NoRepeats(before) && y !in before
  {
    var s := before + [y];
    assert s[|before|] == y && forall i :: 0 <= i < |before| ==> s[i] == before[i];
  }

  lemma NoRepeatsConcat<T>(a: seq<T>, b: seq<T>)
    requires NoRepeats(a) && NoRepeats(b) && forall x :: x in a ==> x !in b
    ensures NoRepeats(a + b)
  {
    forall i, k | 0 <= i < k < |a + b| ensures (a + b)[i] != (a + b)[k] {
      if i < |a| <= k {
        assert a[i] in a && b[k - |a|] in b;
      }
    }
  }

  lemma NoRepeatsPrefix<T>(a: seq<T>, b: seq<T>)
    requires NoRepeats(b) && a <= b
    ensures NoRepeats(a)
  {
  }

  lemma NoRepeatsTail<T>(s: seq<T>)
    requires NoRepeats(s) && s != []
    ensures NoRepeats(s[1..]) && s[0] !in s[1..]
  {
  }

  lemma SingleOnce<T>(x: T)
    ensures NoRepeats([x]) && NoRepeats<T>([])
  {
  }

  lemma EmptyOnce<T>()
    ensures NoRepeats<T>([])
  {
  }
}
