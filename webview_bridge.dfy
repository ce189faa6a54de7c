/** The message bridge injected into the web content of a window: an
    outbound queue drained into the backend while it is ready, an inbound
    queue fanned out to every registered handler, and `window.audience`
    with `postMessage`, `onMessage` and `offMessage`. Two scripts share this
    logic: the current frontend (which type-checks messages from the
    backend and throws on a second installation) and the older Edge script
    (which queues whatever the host delivers and installs silently once).
    Whether the backend is ready, and whether a `send` or a handler throws,
    are oracles indexed by the step at which they are asked. */
module WebviewBridge {
  import opened Wrappers
  import opened OrderedSet

  /** A JavaScript value as the bridge inspects it: only `typeof` string
      matters. */
  datatype JsValue = JsString(s: string) | JsOther

  /** The identity of a registered message handler. */
  type HandlerId = nat

  datatype Backend = WebsocketBackend | EdgeWebviewBackend

  /** The Edge backend is chosen exactly when the webview signature says so. */
  function BackendFor(signature: Option<string>): (b: Backend)
    ensures b == EdgeWebviewBackend <==> signature == Some("edge")
  {
    if signature == Some("edge") then EdgeWebviewBackend else WebsocketBackend
  }

  /** `ready()` of the websocket backend: the socket is OPEN. */
  predicate WebsocketReady(readyState: int)
  {
    readyState == 1
  }

  /** `ready()` of the Edge backend (and the older script's loop guard):
      the host object `window.external` exists. */
  predicate EdgeReady(externalDefined: bool)
  {
    externalDefined
  }

  /** The first `count` handlers each receiving `m`, in set order. */
  function Calls(hs: seq<HandlerId>, m: JsValue, count: nat): (r: seq<(HandlerId, JsValue)>)
    requires count <= |hs|
    ensures |r| == count
    ensures forall i :: 0 <= i < count ==> r[i] == (hs[i], m)
  {
    seq(count, i requires 0 <= i < count => (hs[i], m))
  }

  /** Every message of `ms`, in queue order, delivered to every handler. */
  function FanOut(hs: seq<HandlerId>, ms: seq<JsValue>): seq<(HandlerId, JsValue)>
  {
    if |ms| == 0 then [] else FanOut(hs, ms[..|ms| - 1]) + Calls(hs, ms[|ms| - 1], |hs|)
  }

  lemma FanOutSnoc(hs: seq<HandlerId>, ms: seq<JsValue>, n: nat)
    requires n < |ms|
    ensures FanOut(hs, ms[..n + 1]) == FanOut(hs, ms[..n]) + Calls(hs, ms[n], |hs|)
  {
    assert ms[..n + 1][..n] == ms[..n];
  }

  /** Draining delivers each message to each handler exactly once: entry
      `k * |hs| + j` of the fan-out is message `k` reaching handler `j`, so
      every handler sees the messages in queue order. */
  lemma {:induction false} FanOutLayout(hs: seq<HandlerId>, ms: seq<JsValue>)
    ensures |FanOut(hs, ms)| == |ms| * |hs|
    ensures forall k, j :: 0 <= k < |ms| && 0 <= j < |hs| ==> FanOut(hs, ms)[k * |hs| + j] == (hs[j], ms[k])
  {
    if |ms| > 0 {
      var front := ms[..|ms| - 1];
      FanOutLayout(hs, front);
      var r := FanOut(hs, ms);
      assert |r| == |front| * |hs| + |hs|;
      forall k, j | 0 <= k < |ms| && 0 <= j < |hs|
        ensures r[k * |hs| + j] == (hs[j], ms[k])
      {
        if k < |ms| - 1 {
          assert k * |hs| + j < |front| * |hs| by {
            assert (k + 1) * |hs| <= |front| * |hs| by {
              MulMonotone(k + 1, |front|, |hs|);
            }
          }
          assert front[k] == ms[k];
        } else {
          assert k * |hs| == |front| * |hs|;
        }
      }
    }
  }

  lemma MulMonotone(a: nat, b: nat, c: nat)
    requires a <= b
    ensures a * c <= b * c
  {
  }

  /** Fan-out of consecutive queue segments concatenates. */
  lemma {:induction false} FanOutAppend(hs: seq<HandlerId>, a: seq<JsValue>, b: seq<JsValue>)
    ensures FanOut(hs, a + b) == FanOut(hs, a) + FanOut(hs, b)
    decreases |b|
  {
    if |b| > 0 {
      var b' := b[..|b| - 1];
      FanOutAppend(hs, a, b');
      assert (a + b)[..|a + b| - 1] == a + b';
    } else {
      assert a + b == a;
    }
  }

  class Bridge {
    /** The backend the script selected at installation. */
    const backend: Backend
    /** Messages from the backend must be strings (the current frontend);
        the older Edge script queues any value. */
    const strictIncoming: bool
    var qout: seq<string>
    var qin: seq<JsValue>
    var handlers: seq<HandlerId>
    /** Every message `send`/`notify` accepted, in order. */
    var sent: seq<string>
    /** Every handler invocation, in order. */
    var delivered: seq<(HandlerId, JsValue)>

    ghost predicate Valid()
      reads this
    {
      Distinct(handlers) && (strictIncoming ==> forall i :: 0 <= i < |qin| ==> qin[i].JsString?)
    }

    constructor (backend: Backend, strictIncoming: bool)
      ensures Valid()
      ensures this.backend == backend && this.strictIncoming == strictIncoming
      ensures qout == [] && qin == [] && handlers == [] && sent == [] && delivered == []
    {
      this.backend := backend;
      this.strictIncoming := strictIncoming;
      qout := [];
      qin := [];
      handlers := [];
      sent := [];
      delivered := [];
    }

    /** `pushToBackend` (and `pushOutgoing` of the older script): while the
        backend is ready and the queue is non-empty, send the head and shift
        it only after the send returned. A throwing send stops the drain
        with the message still at the head. `ready(k)` and `fails(k)` answer
        for the `k`-th iteration. */
    method PushToBackend(ready: nat -> bool, fails: nat -> bool) returns (n: nat)
      requires Valid()
      modifies this
      ensures Valid()
      ensures n <= |old(qout)|
      ensures sent == old(sent) + old(qout)[..n] && qout == old(qout)[n..]
      ensures sent[|old(sent)|..] + qout == old(qout)
      ensures forall k :: 0 <= k < n ==> ready(k) && !fails(k)
      ensures n < |old(qout)| ==> !ready(n) || fails(n)
      ensures qin == old(qin) && handlers == old(handlers) && delivered == old(delivered)
    {
      n := 0;
      while ready(n) && |qout| > 0
        invariant n <= |old(qout)|
        invariant sent == old(sent) + old(qout)[..n] && qout == old(qout)[n..]
        invariant forall k :: 0 <= k < n ==> ready(k) && !fails(k)
        invariant qin == old(qin) && handlers == old(handlers) && delivered == old(delivered)
        decreases |qout|
      {
        if fails(n) {
          break;
        }
        assert old(qout)[..n + 1] == old(qout)[..n] + [qout[0]];
        sent := sent + [qout[0]];
        qout := qout[1..];
        n := n + 1;
      }
      assert sent[|old(sent)|..] == old(qout)[..n];
    }

    /** `handlers.forEach(handler => handler(m))` in pass `pass`: calls the
        handlers in set order until one throws (`fails(pass, j)`), which
        ends the loop with `failedAt == Some(j)`; that handler was called. */
    method DeliverToAll(m: JsValue, pass: nat, fails: (nat, nat) -> bool) returns (failedAt: Option<nat>)
      modifies this
      ensures failedAt.Some? ==> failedAt.value < |handlers| && fails(pass, failedAt.value)
      ensures failedAt.Some? ==> forall i :: 0 <= i < failedAt.value ==> !fails(pass, i)
      ensures failedAt.None? ==> forall i :: 0 <= i < |handlers| ==> !fails(pass, i)
      ensures delivered == old(delivered) + Calls(handlers, m, if failedAt.Some? then failedAt.value + 1 else |handlers|)
      ensures handlers == old(handlers) && qin == old(qin) && qout == old(qout) && sent == old(sent)
    {
      var j := 0;
      while j < |handlers|
        invariant 0 <= j <= |handlers|
        invariant delivered == old(delivered) + Calls(handlers, m, j)
        invariant forall i :: 0 <= i < j ==> !fails(pass, i)
        invariant handlers == old(handlers) && qin == old(qin) && qout == old(qout) && sent == old(sent)
      {
        assert Calls(handlers, m, j + 1) == Calls(handlers, m, j) + [(handlers[j], m)];
        delivered := delivered + [(handlers[j], m)];
        if fails(pass, j) {
          return Some(j);
        }
        j := j + 1;
      }
      failedAt := None;
    }

    /** `pushToHandlers` (and `pushIncoming`): while there is a handler and
        a message, call every handler with the head in set order and shift
        the head only after all returned. When handler `j` throws in pass
        `n` (`fails(n, j)`), the drain stops, `stopped` is `Some(j)` and the
        head stays queued, so the handlers before it receive it again at the
        next drain. */
    method PushToHandlers(fails: (nat, nat) -> bool) returns (n: nat, stopped: Option<nat>)
      requires Valid()
      modifies this
      ensures Valid()
      ensures n <= |old(qin)| && qin == old(qin)[n..]
      ensures stopped.Some? ==> n < |old(qin)| && stopped.value < |handlers| && fails(n, stopped.value)
      ensures stopped.Some? ==> forall j :: 0 <= j < stopped.value ==> !fails(n, j)
      ensures delivered == old(delivered) + FanOut(handlers, old(qin)[..n])
        + (if stopped.Some? then Calls(handlers, old(qin)[n], stopped.value + 1) else [])
      ensures stopped.None? ==> n == |old(qin)| || |handlers| == 0
      ensures |handlers| == 0 ==> n == 0 && stopped.None? && delivered == old(delivered)
      ensures forall k, j :: 0 <= k < n && 0 <= j < |handlers| ==> !fails(k, j)
      ensures handlers == old(handlers) && qout == old(qout) && sent == old(sent)
    {
      n := 0;
      stopped := None;
      while |handlers| > 0 && |qin| > 0
        invariant n <= |old(qin)| && qin == old(qin)[n..]
        invariant delivered == old(delivered) + FanOut(handlers, old(qin)[..n])
        invariant forall k, j :: 0 <= k < n && 0 <= j < |handlers| ==> !fails(k, j)
        invariant |handlers| == 0 ==> n == 0
        invariant handlers == old(handlers) && qout == old(qout) && sent == old(sent)
        invariant strictIncoming ==> forall i :: 0 <= i < |qin| ==> qin[i].JsString?
        decreases |qin|
      {
        var failedAt := DeliverToAll(qin[0], n, fails);
        if failedAt.Some? {
          stopped := failedAt;
          return;
        }
        FanOutSnoc(handlers, old(qin), n);
        qin := qin[1..];
        n := n + 1;
      }
      if |handlers| == 0 {
        assert old(qin)[..0] == [];
      }
    }

    /** The host's ready notification drains the outbound queue. */
    method OnBackendReady(ready: nat -> bool, fails: nat -> bool) returns (n: nat)
      requires Valid()
      modifies this
      ensures Valid()
      ensures n <= |old(qout)| && sent == old(sent) + old(qout)[..n] && qout == old(qout)[n..]
      ensures n < |old(qout)| ==> !ready(n) || fails(n)
      ensures qin == old(qin) && handlers == old(handlers) && delivered == old(delivered)
    {
      n := PushToBackend(ready, fails);
    }

    /** `window.audience.postMessage`: a non-string throws and touches no
        queue; a string is appended to the outbound queue, which is then
        drained. Nothing is lost or reordered: what was sent before, what
        this call sent and what is still queued are the old queue followed
        by the message. */
    method PostMessage(message: JsValue, ready: nat -> bool, fails: nat -> bool) returns (r: Outcome, n: nat)
      requires Valid()
      modifies this
      ensures Valid()
      ensures r.Pass? <==> message.JsString?
      ensures r.Fail? ==> r.error == "only string messages are supported"
      ensures r.Fail? ==> qout == old(qout) && sent == old(sent)
      ensures r.Pass? ==> sent + qout == old(sent) + old(qout) + [message.s]
      ensures r.Pass? ==> |sent| == |old(sent)| + n && qout == (old(qout) + [message.s])[n..]
      ensures r.Pass? && n <= |old(qout)| ==> !ready(n) || fails(n)
      ensures qin == old(qin) && handlers == old(handlers) && delivered == old(delivered)
    {
      if !message.JsString? {
        return Fail("only string messages are supported"), 0;
      }
      qout := qout + [message.s];
      ghost var queued := qout;
      n := PushToBackend(ready, fails);
      assert queued == queued[..n] + queued[n..];
      r := Pass;
    }

    /** A message from the backend: the current frontend throws on a
        non-string and queues nothing; the older script's
        `_audienceIncomingMessage` queues any value. The inbound queue is
        then drained to the handlers. */
    method BackendMessage(message: JsValue, fails: (nat, nat) -> bool) returns (r: Outcome, n: nat, stopped: Option<nat>)
      requires Valid()
      modifies this
      ensures Valid()
      ensures r.Fail? <==> strictIncoming && !message.JsString?
      ensures r.Fail? ==> r.error == "only string messages are supported"
      ensures r.Fail? ==> qin == old(qin) && delivered == old(delivered)
      ensures r.Pass? ==> n <= |old(qin)| + 1 && qin == (old(qin) + [message])[n..]
      ensures r.Pass? && stopped.Some? ==> n < |old(qin)| + 1 && stopped.value < |handlers|
      ensures r.Pass? ==>
        delivered == old(delivered) + FanOut(handlers, (old(qin) + [message])[..n])
        + (if stopped.Some? then Calls(handlers, (old(qin) + [message])[n], stopped.value + 1) else [])
      ensures r.Pass? && stopped.None? ==> qin == [] || |handlers| == 0
      ensures qout == old(qout) && sent == old(sent) && handlers == old(handlers)
    {
      if strictIncoming && !message.JsString? {
        return Fail("only string messages are supported"), 0, None;
      }
      qin := qin + [message];
      n, stopped := PushToHandlers(fails);
      r := Pass;
    }

    /** `onMessage`: add the handler; queued messages wait for the next
        message or drain. */
    method OnMessage(handler: HandlerId)
      requires Valid()
      modifies this
      ensures Valid()
      ensures handlers == Add(old(handlers), handler)
      ensures qin == old(qin) && qout == old(qout) && sent == old(sent) && delivered == old(delivered)
    {
      handlers := Add(handlers, handler);
    }

    /** `offMessage(handler)` deletes only that handler; `offMessage()`
        clears them all. */
    method OffMessage(handler: Option<HandlerId>)
      requires Valid()
      modifies this
      ensures Valid()
      ensures handler.Some? ==> handlers == Delete(old(handlers), handler.value)
      ensures handler.None? ==> handlers == []
      ensures qin == old(qin) && qout == old(qout) && sent == old(sent) && delivered == old(delivered)
    {
      if handler.Some? {
        DeleteKeepsDistinct(handlers, handler.value);
        handlers := Delete(handlers, handler.value);
      } else {
        handlers := [];
      }
    }
  }

  /** The page's `window.audience` slot. */
  class Page {
    var audience: Option<Bridge>

    constructor ()
      ensures audience.None?
    {
      audience := None;
    }

    /** Running the current frontend script: a second installation throws
        and leaves the first bridge in place; otherwise a fresh bridge with
        empty queues and the backend the signature selects is installed. */
    method InstallFrontend(signature: Option<string>) returns (r: Outcome)
      modifies this
      ensures old(audience).Some? ==> r == Fail("double initialization of audience frontend detected")
      ensures old(audience).Some? ==> audience == old(audience)
      ensures old(audience).None? ==> r == Pass && audience.Some? && fresh(audience.value)
      ensures old(audience).None? ==> audience.value.Valid() && audience.value.strictIncoming
      ensures old(audience).None? ==> audience.value.backend == BackendFor(signature)
      ensures old(audience).None? ==> audience.value.qin == [] && audience.value.qout == [] && audience.value.handlers == []
    {
      if audience.Some? {
        return Fail("double initialization of audience frontend detected");
      }
      var b := new Bridge(BackendFor(signature), true);
      audience := Some(b);
      r := Pass;
    }

    /** Running the older Edge script: a second installation returns
        silently, keeping the first bridge. */
    method InstallEdgeScript()
      modifies this
      ensures old(audience).Some? ==> audience == old(audience)
      ensures old(audience).None? ==> audience.Some? && fresh(audience.value)
      ensures old(audience).None? ==> audience.value.Valid() && !audience.value.strictIncoming
      ensures old(audience).None? ==> audience.value.backend == EdgeWebviewBackend
      ensures old(audience).None? ==> audience.value.qin == [] && audience.value.qout == [] && audience.value.handlers == []
    {
      if audience.Some? {
        return;
      }
      var b := new Bridge(EdgeWebviewBackend, false);
      audience := Some(b);
    }
  }
}
