/** Shared wrappers: optional values, the Python exceptions the core can raise, generic
    sequence filtering and the subsequence relation used by the decision filters. */
module Common {

  datatype Option<+T> = None | Some(value: T)

  /** The Python exceptions that escape the modelled operations. */
  datatype Fault =
    | AttributeError(name: string)
    | TypeError(message: string)
    | ValueError(message: string)
    | ZeroDivisionError

  /** A value, or the exception that would have been raised instead. */
  datatype Result<+T> = Ok(value: T) | Err(fault: Fault)

  /** Python truthiness of an optional integer id: `None` and `0` are both falsy. */
  predicate IsHeld(id: Option<int>) {
    id.Some? && id.value != 0
  }

  function Max(a: int, b: int): int {
    if a < b then b else a
  }

  /** The elements of `s` that satisfy `p`, in their original order (a list comprehension with a guard). */
  function Filter<T>(p: T -> bool, s: seq<T>): (r: seq<T>)
    ensures |r| <= |s|
  {
    if s == [] then [] else (if p(s[0]) then [s[0]] else []) + Filter(p, s[1..])
  }

  /** `a` can be obtained from `b` by deleting elements: order is preserved. */
  predicate IsSubsequence<T(==)>(a: seq<T>, b: seq<T>)
    decreases |b|
  {
    a == [] || (b != [] && ((a[0] == b[0] && IsSubsequence(a[1..], b[1..])) || IsSubsequence(a, b[1..])))
  }

  lemma {:induction false} FilterMembers<T>(p: T -> bool, s: seq<T>)
    ensures forall x :: x in Filter(p, s) <==> x in s && p(x)
  {
    if s != [] {
      FilterMembers(p, s[1..]);
      assert s == [s[0]] + s[1..];
    }
  }

  lemma {:induction false} FilterIsSubsequence<T>(p: T -> bool, s: seq<T>)
    ensures IsSubsequence(Filter(p, s), s)
  {
    if s != [] {
      FilterIsSubsequence(p, s[1..]);
      var r := Filter(p, s[1..]);
      if p(s[0]) {
        var a := [s[0]] + r;
        assert Filter(p, s) == a;
        assert a[0] == s[0] && a[1..] == r;
        assert IsSubsequence(a[1..], s[1..]);
      } else {
        assert Filter(p, s) == r;
      }
    }
  }

  lemma {:induction false} FilterAllSatisfy<T>(p: T -> bool, s: seq<T>)
    requires forall i :: 0 <= i < |s| ==> p(s[i])
    ensures Filter(p, s) == s
  {
    if s != [] {
      FilterAllSatisfy(p, s[1..]);
    }
  }

  lemma {:induction false} FilterSatisfies<T>(p: T -> bool, s: seq<T>)
    ensures forall i :: 0 <= i < |Filter(p, s)| ==> p(Filter(p, s)[i])
  {
    if s != [] {
      FilterSatisfies(p, s[1..]);
    }
  }

  lemma {:induction false} FilterIdempotent<T>(p: T -> bool, s: seq<T>)
    ensures Filter(p, Filter(p, s)) == Filter(p, s)
  {
    FilterSatisfies(p, s);
    FilterAllSatisfy(p, Filter(p, s));
  }

  lemma {:induction false} FilterAppend<T>(p: T -> bool, a: seq<T>, b: seq<T>)
    ensures Filter(p, a + b) == Filter(p, a) + Filter(p, b)
  {
    if a == [] {
      assert a + b == b;
    } else {
      var ab := a + b;
      var head := if p(a[0]) then [a[0]] else [];
      assert ab[0] == a[0] && ab[1..] == a[1..] + b;
      calc {
        Filter(p, ab);
        head + Filter(p, a[1..] + b);
        { FilterAppend(p, a[1..], b); }
        head + (Filter(p, a[1..]) + Filter(p, b));
        (head + Filter(p, a[1..])) + Filter(p, b);
        Filter(p, a) + Filter(p, b);
      }
    }
  }

  /** No element occurs twice. */
  predicate NoDuplicates<T(==)>(s: seq<T>) {
    forall i, j :: 0 <= i < j < |s| ==> s[i] != s[j]
  }

  lemma {:induction false} FilterNoDuplicates<T>(p: T -> bool, s: seq<T>)
    requires NoDuplicates(s)
    ensures NoDuplicates(Filter(p, s))
  {
    if s != [] {
      assert NoDuplicates(s[1..]) by {
        forall i, j | 0 <= i < j < |s[1..]| ensures s[1..][i] != s[1..][j] {
          assert s[1..][i] == s[i + 1] && s[1..][j] == s[j + 1];
        }
      }
      FilterNoDuplicates(p, s[1..]);
      FilterMembers(p, s[1..]);
      var r := Filter(p, s[1..]);
      assert s[0] !in s[1..] by {
        forall k | 0 <= k < |s[1..]| ensures s[1..][k] != s[0] {
          assert s[1..][k] == s[k + 1];
        }
      }
      if p(s[0]) {
        var a := [s[0]] + r;
        forall i, j | 0 <= i < j < |a| ensures a[i] != a[j] {
          if i == 0 {
            assert a[j] == r[j - 1] && a[j] in r;
          } else {
            assert a[i] == r[i - 1] && a[j] == r[j - 1];
          }
        }
      }
    }
  }
}
