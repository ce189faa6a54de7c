/** A scope guard: cleanup handlers registered one by one and run when the
    guard goes out of scope, newest first, subject to an execution policy.
    A handler is foreign code; the model knows it by a number and by what
    running it does (return, throw a standard exception, throw anything
    else). Running handlers is recorded in `ran`, and the error log in
    `logged`. */
module ScopeGuard {
  import opened Wrappers

  /** When the handlers run: always, only when the scope is left normally,
      or only when it is left by an exception. */
  datatype Policy = Always | NoException | OnException

  datatype Behaviour = Returns | ThrowsStd(what: string) | ThrowsOther

  datatype Handler = Handler(id: nat, behaviour: Behaviour)

  const UnknownException := "unknown exception"

  /** The destructor's test: the policy is `always`, or the scope is being
      unwound exactly when the policy is `exception`. */
  predicate Runs(policy: Policy, unwinding: bool)
  {
    policy == Always || unwinding == (policy == OnException)
  }

  /** The three policies, case by case. */
  lemma RunsByPolicy(policy: Policy, unwinding: bool)
    ensures Runs(policy, unwinding) <==>
      || policy == Always
      || (policy == OnException && unwinding)
      || (policy == NoException && !unwinding)
  {
  }

  /** The order in which handlers run: their numbers, front to back. */
  function Ids(hs: seq<Handler>): (r: seq<nat>)
    ensures |r| == |hs| && forall i :: 0 <= i < |hs| ==> r[i] == hs[i].id
  {
    seq(|hs|, i requires 0 <= i < |hs| => hs[i].id)
  }

  /** What the destructor logs for one handler. */
  function LogOf(h: Handler): (r: seq<string>)
    ensures h.behaviour.Returns? <==> r == []
  {
    match h.behaviour
    case Returns => []
    case ThrowsStd(what) => [what]
    case ThrowsOther => [UnknownException]
  }

  /** The log of running the handlers front to back: one line per throwing
      handler, in order. */
  function Failures(hs: seq<Handler>): (r: seq<string>)
    ensures |r| <= |hs|
  {
    if |hs| == 0 then [] else Failures(hs[..|hs| - 1]) + LogOf(hs[|hs| - 1])
  }

  /** Handlers that all return log nothing. */
  lemma {:induction false} NoFailures(hs: seq<Handler>)
    requires forall i :: 0 <= i < |hs| ==> hs[i].behaviour.Returns?
    ensures Failures(hs) == []
  {
    if |hs| > 0 {
      NoFailures(hs[..|hs| - 1]);
    }
  }

  /** The handler list after registering `regs` in order, each at the
      front. */
  function Stacked(regs: seq<Handler>): seq<Handler>
  {
    if |regs| == 0 then [] else [regs[|regs| - 1]] + Stacked(regs[..|regs| - 1])
  }

  /** Registering at the front reverses the order: the handler registered
      last is the first to run. */
  lemma {:induction false} StackedReverses(regs: seq<Handler>)
    ensures |Stacked(regs)| == |regs|
    ensures forall i :: 0 <= i < |regs| ==> Stacked(regs)[i] == regs[|regs| - 1 - i]
  {
    if |regs| > 0 {
      var front := regs[..|regs| - 1];
      StackedReverses(front);
      forall i | 0 <= i < |regs| ensures Stacked(regs)[i] == regs[|regs| - 1 - i] {
        if i > 0 {
          assert Stacked(regs)[i] == Stacked(front)[i - 1] == front[|front| - 1 - (i - 1)];
        }
      }
    }
  }

  /** Running one more handler adds its number and its log. */
  lemma RunStep(hs: seq<Handler>, i: nat)
    requires i < |hs|
    ensures Ids(hs[..i + 1]) == Ids(hs[..i]) + [hs[i].id]
    ensures Failures(hs[..i + 1]) == Failures(hs[..i]) + LogOf(hs[i])
  {
    assert hs[..i + 1][..i] == hs[..i];
  }

  class Guard {
    const policy: Policy
    var handlers: seq<Handler>
    /** The handlers that ran, in order. */
    var ran: seq<nat>
    var logged: seq<string>
    /** The registrations since the guard was made or last dismissed. */
    ghost var registered: seq<Handler>

    /** The handlers are the registered ones, newest first. */
    ghost predicate Valid()
      reads this
    {
      handlers == Stacked(registered)
    }

    /** A guard with no handlers; the policy defaults to `always`. */
    constructor (policy: Policy := Always)
      ensures Valid()
      ensures this.policy == policy && handlers == [] && registered == []
      ensures ran == [] && logged == []
    {
      this.policy := policy;
      handlers := [];
      ran := [];
      logged := [];
      registered := [];
    }

    /** `operator+=`: the handler goes to the front. If storing it fails,
        the handler runs at once (except under `no_exception`) and the
        failure is passed on, or the handler's own exception when it throws
        one. */
    method Add(h: Handler, storeFailure: Option<string>) returns (r: Outcome)
      requires Valid()
      modifies this
      ensures Valid() && logged == old(logged)
      ensures storeFailure.None? ==>
        && r == Pass && handlers == [h] + old(handlers)
        && registered == old(registered) + [h] && ran == old(ran)
      ensures storeFailure.Some? ==>
        && r.Fail? && handlers == old(handlers) && registered == old(registered)
        && ran == old(ran) + (if policy != NoException then [h.id] else [])
        && r.error == (if policy != NoException && h.behaviour.ThrowsStd? then h.behaviour.what
                       else if policy != NoException && h.behaviour.ThrowsOther? then UnknownException
                       else storeFailure.value)
    {
      if storeFailure.Some? {
        if policy != NoException {
          ran := ran + [h.id];
          match h.behaviour {
            case ThrowsStd(what) => return Fail(what);
            case ThrowsOther => return Fail(UnknownException);
            case Returns =>
          }
        }
        return Fail(storeFailure.value);
      }
      handlers := [h] + handlers;
      registered := registered + [h];
      return Pass;
    }

    /** `dismiss`: forgets every handler, so none runs at the end. */
    method Dismiss()
      modifies this
      ensures Valid() && handlers == [] && registered == []
      ensures ran == old(ran) && logged == old(logged)
    {
      handlers := [];
      registered := [];
    }

    /** The destructor: when the policy allows, every handler runs, front to
        back, and one that throws is logged without stopping the others. */
    method Destroy(unwinding: bool)
      modifies this
      ensures handlers == old(handlers) && registered == old(registered)
      ensures Runs(policy, unwinding) ==>
        ran == old(ran) + Ids(handlers) && logged == old(logged) + Failures(handlers)
      ensures !Runs(policy, unwinding) ==> ran == old(ran) && logged == old(logged)
    {
      if policy == Always || unwinding == (policy == OnException) {
        var runs, logs := RunHandlers(handlers);
        ran := ran + runs;
        logged := logged + logs;
      }
    }
  }

  /** The destructor's loop: every handler runs, front to back; one that
      throws is logged (its message, or the unknown-exception line) and the
      loop goes on. */
  method RunHandlers(hs: seq<Handler>) returns (runs: seq<nat>, logs: seq<string>)
    ensures runs == Ids(hs) && logs == Failures(hs)
  {
    runs := [];
    logs := [];
    var i := 0;
    while i < |hs|
      invariant 0 <= i <= |hs|
      invariant runs == Ids(hs[..i]) && logs == Failures(hs[..i])
    {
      var h := hs[i];
      RunStep(hs, i);
      runs := runs + [h.id];
      match h.behaviour {
        case Returns =>
        case ThrowsStd(what) => logs := logs + [what];
        case ThrowsOther => logs := logs + [UnknownException];
      }
      i := i + 1;
    }
    assert hs[..i] == hs;
  }
}
