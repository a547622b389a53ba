/** Option and the few sequence operations the rest of the model shares. */
module Sequences {

  datatype Option<+T> = None | Some(value: T)

  /** No element occurs twice. */
  predicate Distinct<T(==)>(s: seq<T>) {
    forall i, j :: 0 <= i < j < |s| ==> s[i] != s[j]
  }

  /** `s` with every occurrence of `x` removed, order kept. */
  function Without(s: seq<string>, x: string): (r: seq<string>)
    ensures forall y :: y in r <==> y in s && y != x
    ensures Distinct(s) ==> Distinct(r)
    ensures x !in s ==> r == s
  {
    if s == [] then []
    else if s[0] == x then Without(s[1..], x)
    else
      var rest := Without(s[1..], x);
      DistinctCons(s[0], rest);
      [s[0]] + rest
  }

  /** `s` with every `a` replaced by `b`, so that `b` takes `a`'s place. */
  function Replace(s: seq<string>, a: string, b: string): (r: seq<string>)
    requires b !in s
    ensures |r| == |s|
    ensures forall y :: y in r <==> (y in s && y != a) || (y == b && a in s)
    ensures Distinct(s) ==> Distinct(r)
  {
    if s == [] then []
    else
      var rest := Replace(s[1..], a, b);
      var head := if s[0] == a then b else s[0];
      DistinctCons(head, rest);
      [head] + rest
  }

  /** Putting a new element at the end keeps a sequence free of repeats. */
  lemma DistinctSnoc<T>(s: seq<T>, x: T)
    ensures x !in s && Distinct(s) ==> Distinct(s + [x])
  {
  }

  /** Putting a new element in front keeps a sequence free of repeats. */
  lemma DistinctCons<T>(x: T, r: seq<T>)
    ensures x !in r && Distinct(r) ==> Distinct([x] + r)
  {
    if x !in r && Distinct(r) {
      var s := [x] + r;
      forall i, j | 0 <= i < j < |s| ensures s[i] != s[j] {
        if i == 0 {
          assert s[j] == r[j - 1];
        } else {
          assert s[i] == r[i - 1] && s[j] == r[j - 1];
        }
      }
    }
  }
}
