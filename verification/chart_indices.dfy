/**
 * The index pipeline of `processChartData`:
 * `Object.keys(Open_n).map(Number).filter(i => !isNaN(i)).sort((a, b) => a - b)`.
 */
module ChartIndices {
  import opened JsValues

  /** `keys.map(Number)`. */
  function Numbers(keys: seq<string>, parse: string -> Num): seq<Num>
  {
    seq(|keys|, i requires 0 <= i < |keys| => parse(keys[i]))
  }

  /**
   * `keys.map(Number).filter(i => !isNaN(i))`: the keys that parse to a number,
   * in key order, one element per such key.
   */
  function NumericKeys(keys: seq<string>, parse: string -> Num): (xs: seq<real>)
    ensures |xs| <= |keys|
    ensures forall x :: x in xs <==> exists i :: 0 <= i < |keys| && parse(keys[i]) == Finite(x)
  {
    if keys == [] then []
    else
      var rest := NumericKeys(keys[1..], parse);
      assert forall i :: 1 <= i < |keys| ==> keys[i] == keys[1..][i - 1];
      match parse(keys[0])
      case NaN => rest
      case Finite(x) => [x] + rest
  }

  /**
   * One element per numeric key: each number occurs in the filtered keys as
   * often as keys convert to it.
   */
  lemma {:induction false} NumericKeysCount(keys: seq<string>, parse: string -> Num, x: real)
    ensures multiset(NumericKeys(keys, parse))[x] == multiset(Numbers(keys, parse))[Finite(x)]
  {
    if keys != [] {
      NumericKeysCount(keys[1..], parse, x);
      assert Numbers(keys, parse) == [parse(keys[0])] + Numbers(keys[1..], parse);
    }
  }

  /** Removing the same element from two equal multisets leaves equal multisets. */
  lemma CancelOne<T>(x: T, m1: multiset<T>, m2: multiset<T>)
    requires multiset{x} + m1 == multiset{x} + m2
    ensures m1 == m2
  {
    forall y
      ensures m1[y] == m2[y]
    {
      assert (multiset{x} + m1)[y] == (multiset{x} + m2)[y];
    }
  }

  /** Converting the keys commutes with concatenating them. */
  lemma NumbersAppend(a: seq<string>, b: seq<string>, parse: string -> Num)
    ensures Numbers(a + b, parse) == Numbers(a, parse) + Numbers(b, parse)
  {
  }

  /** Rearranging the keys rearranges their numbers the same way. */
  lemma {:induction false} NumbersPermute(k1: seq<string>, k2: seq<string>, parse: string -> Num)
    requires multiset(k1) == multiset(k2)
    ensures multiset(Numbers(k1, parse)) == multiset(Numbers(k2, parse))
    decreases |k1|
  {
    if k1 == [] {
      assert |k2| == |multiset(k2)| == 0;
    } else {
      var key, rest := k1[0], k1[1..];
      assert key in multiset(k2);
      var j :| 0 <= j < |k2| && k2[j] == key;
      var before, after := k2[..j], k2[j + 1..];
      assert k2 == before + ([key] + after);
      RemoveMatched(k1, k2, j);
      NumbersPermute(rest, before + after, parse);
      NumbersAppend([key], rest, parse);
      assert Numbers(k1, parse) == [parse(key)] + Numbers(rest, parse);
      NumbersSplit(before, key, after, parse);
    }
  }

  /** Taking the first key off one list and the same key off another keeps their multisets equal. */
  lemma RemoveMatched(k1: seq<string>, k2: seq<string>, j: nat)
    requires multiset(k1) == multiset(k2)
    requires k1 != [] && j < |k2| && k2[j] == k1[0]
    ensures multiset(k1[1..]) == multiset(k2[..j] + k2[j + 1..])
  {
    var key, before, after := k1[0], k2[..j], k2[j + 1..];
    assert k1 == [key] + k1[1..];
    assert k2 == before + [key] + after;
    assert multiset(k2) == multiset{key} + multiset(before + after);
    CancelOne(key, multiset(k1[1..]), multiset(before + after));
  }

  /** Converting `before + [key] + after` yields the numbers of `before + after` plus the key's. */
  lemma NumbersSplit(before: seq<string>, key: string, after: seq<string>, parse: string -> Num)
    ensures multiset(Numbers(before + ([key] + after), parse))
            == multiset{parse(key)} + multiset(Numbers(before + after, parse))
  {
    var nb, na := Numbers(before, parse), Numbers(after, parse);
    NumbersAppend(before, [key] + after, parse);
    NumbersAppend([key], after, parse);
    NumbersAppend(before, after, parse);
    assert Numbers([key], parse) == [parse(key)];
    assert multiset(nb + ([parse(key)] + na)) == multiset(nb) + multiset{parse(key)} + multiset(na);
    assert multiset(nb + na) == multiset(nb) + multiset(na);
  }

  ghost predicate Sorted(s: seq<real>)
  {
    forall i, j :: 0 <= i < j < |s| ==> s[i] <= s[j]
  }

  /** Places `x` into the ascending sequence `s`. */
  function Insert(x: real, s: seq<real>): (r: seq<real>)
    requires Sorted(s)
    ensures Sorted(r)
    ensures multiset(r) == multiset(s) + multiset{x}
  {
    if s == [] || x <= s[0] then [x] + s
    else
      var tail := Insert(x, s[1..]);
      assert s == [s[0]] + s[1..];
      LowerBoundKept(s[0], x, s[1..], tail);
      PrependLeast(s[0], tail);
      [s[0]] + tail
  }

  /** A lower bound of an ascending sequence can be put in front of it. */
  lemma PrependLeast(lo: real, t: seq<real>)
    requires Sorted(t)
    requires forall i :: 0 <= i < |t| ==> lo <= t[i]
    ensures Sorted([lo] + t)
  {
    var r := [lo] + t;
    forall i, j | 0 <= i < j < |r|
      ensures r[i] <= r[j]
    {
      assert r[j] == t[j - 1];
      if i > 0 {
        assert r[i] == t[i - 1];
      }
    }
  }

  /** A lower bound of `s` and of `x` bounds every rearrangement of `s` plus `x`. */
  lemma LowerBoundKept(lo: real, x: real, s: seq<real>, t: seq<real>)
    requires lo <= x
    requires forall i :: 0 <= i < |s| ==> lo <= s[i]
    requires multiset(t) == multiset(s) + multiset{x}
    ensures forall i :: 0 <= i < |t| ==> lo <= t[i]
  {
    forall i | 0 <= i < |t|
      ensures lo <= t[i]
    {
      assert t[i] in multiset(t);
      if t[i] != x {
        assert t[i] in multiset(s);
        assert t[i] in s;
      }
    }
  }

  /** `sort((a, b) => a - b)`: ascending numeric order. */
  function SortAscending(s: seq<real>): (r: seq<real>)
    ensures Sorted(r)
    ensures multiset(r) == multiset(s)
  {
    if s == [] then []
    else
      assert s == [s[0]] + s[1..];
      Insert(s[0], SortAscending(s[1..]))
  }

  /** Two ascending sequences with the same elements are equal: the sorted order is unique. */
  lemma {:induction false} SortedUnique(a: seq<real>, b: seq<real>)
    requires Sorted(a) && Sorted(b)
    requires multiset(a) == multiset(b)
    ensures a == b
  {
    if a != [] {
      HeadsAgree(a, b);
      assert a == [a[0]] + a[1..];
      assert b == [b[0]] + b[1..];
      assert multiset(a[1..]) == multiset(b[1..]) by {
        assert multiset(a) == multiset{a[0]} + multiset(a[1..]);
        assert multiset(b) == multiset{a[0]} + multiset(b[1..]);
        CancelOne(a[0], multiset(a[1..]), multiset(b[1..]));
      }
      SortedUnique(a[1..], b[1..]);
    } else {
      assert |b| == |multiset(b)| == 0;
    }
  }

  /** Two ascending sequences with the same elements start with the same (least) one. */
  lemma HeadsAgree(a: seq<real>, b: seq<real>)
    requires Sorted(a) && Sorted(b)
    requires multiset(a) == multiset(b)
    requires a != []
    ensures b != [] && a[0] == b[0]
  {
    assert a[0] in multiset(b);
    assert a[0] in b;
    assert b[0] in multiset(a);
    assert b[0] in a;
  }

  /**
   * The indices do not depend on the order `Object.keys` lists the keys in:
   * the same keys in any order give the same sorted numbers.
   */
  lemma IndicesIgnoreKeyOrder(k1: seq<string>, k2: seq<string>, parse: string -> Num)
    requires multiset(k1) == multiset(k2)
    ensures SortAscending(NumericKeys(k1, parse)) == SortAscending(NumericKeys(k2, parse))
  {
    var xs, ys := NumericKeys(k1, parse), NumericKeys(k2, parse);
    NumbersPermute(k1, k2, parse);
    forall x
      ensures multiset(xs)[x] == multiset(ys)[x]
    {
      NumericKeysCount(k1, parse, x);
      NumericKeysCount(k2, parse, x);
    }
    assert multiset(xs) == multiset(ys);
    SortedUnique(SortAscending(xs), SortAscending(ys));
  }
}
