/** A memory scope: every allocation registers its release with a scope
    guard whose policy is `always`, so all memory allocated in the scope is
    released when it ends, the newest allocation first. Allocation number
    `k` is released by the handler numbered `k`. */
module MemoryScope {
  import opened Wrappers
  import ScopeGuard

  /** A single value-initialised object. */
  class Cell<T> {
    var value: T

    constructor (value: T)
      ensures this.value == value
    {
      this.value := value;
    }
  }

  /** The release handlers of the first `n` allocations, newest first. */
  function Releases(n: nat): (r: seq<ScopeGuard.Handler>)
    ensures |r| == n
  {
    if n == 0 then [] else [ScopeGuard.Handler(n - 1, ScopeGuard.Returns)] + Releases(n - 1)
  }

  /** The releases run in reverse order of allocation and log nothing. */
  lemma {:induction false} ReleasesInReverse(n: nat)
    ensures forall i :: 0 <= i < n ==> ScopeGuard.Ids(Releases(n))[i] == n - 1 - i
    ensures ScopeGuard.Failures(Releases(n)) == []
  {
    var r := Releases(n);
    forall i | 0 <= i < n ensures r[i].id == n - 1 - i && r[i].behaviour.Returns? {
      ReleaseAt(n, i);
    }
    ScopeGuard.NoFailures(r);
  }

  lemma {:induction false} ReleaseAt(n: nat, i: nat)
    requires i < n
    ensures Releases(n)[i] == ScopeGuard.Handler(n - 1 - i, ScopeGuard.Returns)
  {
    if i > 0 {
      ReleaseAt(n - 1, i - 1);
    }
  }

  class Scope {
    const guard: ScopeGuard.Guard
    /** How many allocations the scope has made. */
    var allocations: nat

    ghost predicate Valid()
      reads this, guard
    {
      guard.Valid() && guard.policy == ScopeGuard.Always && guard.handlers == Releases(allocations)
    }

    constructor ()
      ensures Valid() && fresh(guard) && allocations == 0
      ensures guard.ran == [] && guard.logged == []
    {
      guard := new ScopeGuard.Guard(ScopeGuard.Always);
      allocations := 0;
    }

    /** Registers the release of the newest allocation. */
    method RegisterRelease()
      requires Valid()
      modifies this, guard
      ensures Valid() && allocations == old(allocations) + 1
      ensures guard.handlers == [ScopeGuard.Handler(old(allocations), ScopeGuard.Returns)] + old(guard.handlers)
      ensures guard.ran == old(guard.ran) && guard.logged == old(guard.logged)
    {
      var outcome := guard.Add(ScopeGuard.Handler(allocations, ScopeGuard.Returns), None);
      allocations := allocations + 1;
    }

    /** `alloc`: one value-initialised object, released at the end of the
        scope. */
    method Alloc<T>(zero: T) returns (m: Cell<T>)
      requires Valid()
      modifies this, guard
      ensures fresh(m) && m.value == zero
      ensures Valid() && allocations == old(allocations) + 1
      ensures guard.ran == old(guard.ran) && guard.logged == old(guard.logged)
    {
      m := new Cell(zero);
      RegisterRelease();
    }

    /** `alloc_array`: `size` value-initialised elements, released at the
        end of the scope. */
    method AllocArray<T>(size: nat, zero: T) returns (m: array<T>)
      requires Valid()
      modifies this, guard
      ensures fresh(m) && m.Length == size && forall i :: 0 <= i < size ==> m[i] == zero
      ensures Valid() && allocations == old(allocations) + 1
      ensures guard.ran == old(guard.ran) && guard.logged == old(guard.logged)
    {
      m := new T[size](_ => zero);
      RegisterRelease();
    }

    /** `alloc_string`: a zero-terminated copy of the text, one element
        longer than the text. */
    method AllocString(s: string) returns (ms: array<char>)
      requires Valid()
      modifies this, guard
      ensures fresh(ms) && ms.Length == |s| + 1
      ensures ms[..|s|] == s && ms[|s|] == '\0'
      ensures Valid() && allocations == old(allocations) + 1
      ensures guard.ran == old(guard.ran) && guard.logged == old(guard.logged)
    {
      ms := AllocArray(|s| + 1, '\0');
      var i := 0;
      while i < |s|
        modifies ms
        invariant 0 <= i <= |s|
        invariant forall k :: 0 <= k < i ==> ms[k] == s[k]
        invariant forall k :: i <= k <= |s| ==> ms[k] == '\0'
      {
        ms[i] := s[i];
        i := i + 1;
      }
    }

    /** The end of the scope: every allocation is released, newest first,
        and nothing is logged. */
    method Close()
      requires Valid()
      modifies guard
      ensures |guard.ran| == |old(guard.ran)| + allocations && guard.ran[..|old(guard.ran)|] == old(guard.ran)
      ensures var released := guard.ran[|old(guard.ran)|..];
        forall i :: 0 <= i < allocations ==> released[i] == allocations - 1 - i
      ensures guard.logged == old(guard.logged)
    {
      guard.Destroy(false);
      ReleasesInReverse(allocations);
    }
  }
}
