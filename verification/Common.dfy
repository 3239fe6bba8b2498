/** Shared vocabulary: identifiers, digests, results and integer bounds. */
module Common {

  /** Largest integer the repository accepts in any document: 2^53 - 1. */
  const MAX_INTEGER: int := 9007199254740991

  datatype Option<+T> = None | Some(value: T)

  /** A value or the fixed code of the exception the Python code raises. */
  datatype Result<+T, +E> = Ok(value: T) | Err(error: E) {
    predicate IsFailure() { Err? }

    function PropagateFailure<U>(): Result<U, E>
      requires Err?
    {
      Err(error)
    }

    function Extract(): T
      requires Ok?
    {
      value
    }
  }

  datatype Id = Id(text: string)

  datatype Digest = Digest(hex: string)

  predicate Distinct<T(==)>(s: seq<T>) {
    forall i, j :: 0 <= i < j < |s| ==> s[i] != s[j]
  }

  predicate IsUint(value: int) { 0 <= value <= MAX_INTEGER }

  /** The integers 1..n, as a set. */
  function OneTo(n: nat): (r: set<int>)
    ensures forall i :: i in r <==> 1 <= i <= n
  {
    if n == 0 then {} else OneTo(n - 1) + {n}
  }

  lemma SubsetOfSameSize(a: set<int>, b: set<int>)
    requires a <= b && |a| == |b|
    ensures a == b
  {
    assert a + (b - a) == b;
    assert |b - a| == 0;
  }

  lemma {:induction false} OneToSize(n: nat)
    ensures |OneTo(n)| == n
  {
    if n > 0 { OneToSize(n - 1); }
  }

  ghost function Image<K(!new), V>(m: map<K, V>, f: V -> int): set<int> { set k | k in m :: f(m[k]) }

  lemma {:induction false} DistinctImage<K(!new), V>(m: map<K, V>, f: V -> int)
    requires forall j, k :: j in m && k in m && j != k ==> f(m[j]) != f(m[k])
    ensures |Image(m, f)| == |m|
    decreases |m|
  {
    if m == map[] {
      assert Image(m, f) == {};
    } else {
      var k :| k in m;
      var rest := m - {k};
      assert rest.Keys == m.Keys - {k};
      DistinctImage(rest, f);
      assert Image(m, f) == Image(rest, f) + {f(m[k])} by {
        forall g | g in Image(m, f) ensures g in Image(rest, f) + {f(m[k])} {
          var j :| j in m && f(m[j]) == g;
          if j != k { assert j in rest && f(rest[j]) == g; }
        }
      }
    }
  }

  /** Distinct numbers between 1 and their count are all of 1..n. */
  lemma NumberedOneTo<K(!new), V>(m: map<K, V>, f: V -> int)
    requires forall j, k :: j in m && k in m && j != k ==> f(m[j]) != f(m[k])
    requires forall k :: k in m ==> 1 <= f(m[k]) <= |m|
    ensures Image(m, f) == OneTo(|m|)
  {
    DistinctImage(m, f);
    OneToSize(|m|);
    SubsetOfSameSize(Image(m, f), OneTo(|m|));
  }
}
