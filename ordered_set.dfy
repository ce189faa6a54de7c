/** A JavaScript `Set` as the code uses it: distinct members kept in
    insertion order (`forEach` visits them in that order), with `add`,
    `delete` and `clear`. */
module OrderedSet {

  predicate Distinct<T(==)>(s: seq<T>)
  {
    forall i, j :: 0 <= i < j < |s| ==> s[i] != s[j]
  }

  /** `set.add(x)`: appends a new member; an existing one keeps its place. */
  function Add<T(==,!new)>(s: seq<T>, x: T): (r: seq<T>)
    requires Distinct(s)
    ensures Distinct(r) && x in r
    ensures forall y :: y in r <==> y in s || y == x
    ensures x in s ==> r == s
    ensures x !in s ==> r == s + [x]
  {
    if x in s then s else s + [x]
  }

  /** `set.delete(x)`: every other member stays, in its order. */
  function Delete<T(==,!new)>(s: seq<T>, x: T): (r: seq<T>)
    ensures x !in r && |r| <= |s|
    ensures forall y :: y in r <==> y in s && y != x
    ensures x !in s ==> r == s
  {
    if |s| == 0 then []
    else if s[0] == x then Delete(s[1..], x)
    else [s[0]] + Delete(s[1..], x)
  }

  lemma {:induction false} DeleteKeepsDistinct<T(!new)>(s: seq<T>, x: T)
    requires Distinct(s)
    ensures Distinct(Delete(s, x))
  {
    if |s| > 0 {
      DeleteKeepsDistinct(s[1..], x);
      assert s[0] !in s[1..] by {
        forall k | 0 <= k < |s[1..]| ensures s[1..][k] != s[0] {
          assert s[1..][k] == s[k + 1];
        }
      }
    }
  }

  /** Deleting a member that was added last gives back the set before the
      addition: `add` and `delete` are inverse on a new member. */
  lemma {:induction false} DeleteUndoesAdd<T(!new)>(s: seq<T>, x: T)
    requires Distinct(s) && x !in s
    ensures Delete(Add(s, x), x) == s
  {
    if |s| == 0 {
      assert Add(s, x) == [x];
    } else {
      assert Add(s, x) == [s[0]] + Add(s[1..], x) by {
        assert s + [x] == [s[0]] + (s[1..] + [x]);
      }
      DeleteUndoesAdd(s[1..], x);
      assert s == [s[0]] + s[1..];
    }
  }
}
