/** The controller-side client of the runtime (the Node.js integration):
    a table of pending commands keyed by string id, the four-name event
    registry, the launch argument list and the exit notification.
    `Date.now()`, `Math.random()` and `process.pid` enter as parameters;
    `peer.write` is the log `written`; a callback invocation is an entry of
    the log `calls`; a promise is a `Settlement` record. */
module NodeClient {
  import opened Wrappers
  import opened Json
  import opened OrderedSet

  /** The identity of a registered callback function. */
  type CallbackId = nat

  /** The keys of `eventHandler`, in the order the map was built. */
  const EventNames: seq<string> := ["window_message", "window_close_intent", "window_close", "app_quit"]
  const EventNameSet: set<string> := set name | name in EventNames

  /** The exception an event callback throws, seen by the line handler. */
  const CallbackThrew := "exception thrown by an event callback"

  predicate IsResultName(name: string)
  {
    name == "command_succeeded" || name == "command_failed"
  }

  /** The state of the promise `dispatchCommand` returned. */
  datatype Settlement = Pending | Resolved(result: Option<Json>) | Rejected(reason: string)

  // ---------------------------------------------------------------------
  // The command line written to the runtime
  // ---------------------------------------------------------------------

  /** `{ id, func, args }`; `JSON.stringify` drops a member whose value is
      `undefined`, so a command without arguments has no "args" member. */
  function CommandObject(id: string, func: string, args: Option<Json>): (j: Json)
    ensures Get(j, "id") == Some(JStr(id))
    ensures Get(j, "func") == Some(JStr(func))
    ensures Get(j, "args") == args
  {
    var members := [("id", JStr(id)), ("func", JStr(func))] + (if args.Some? then [("args", args.value)] else []);
    assert members[1..][0].0 == "func" && members[1..][0].0 != "id";
    assert args.Some? ==> members[1..][1..][0] == ("args", args.value) && "args" != "id" && "args" != "func";
    assert args.None? ==> members[1..][1..] == [];
    JObj(members)
  }

  /** What `peer.write` receives: one line holding the command object. */
  function CommandLine(id: string, func: string, args: Option<Json>): (line: string)
    ensures |line| > 0 && line[|line| - 1] == '\n'
    ensures '\n' !in line[..|line| - 1]
  {
    var text := Dump(CommandObject(id, func, args));
    DumpIsOneLine(CommandObject(id, func, args));
    assert (text + "\n")[..|text|] == text;
    text + "\n"
  }

  // ---------------------------------------------------------------------
  // Command id search
  // ---------------------------------------------------------------------

  /** The value of `idNo` after `k` bumps by the random increments `draws`. */
  function Probe(start: nat, draws: seq<nat>, k: nat): nat
    requires k <= |draws|
  {
    if k == 0 then start else Probe(start, draws, k - 1) + draws[k - 1]
  }

  /** The search only ever moves forward from the start value. */
  lemma {:induction false} ProbesNeverDecrease(start: nat, draws: seq<nat>, j: nat, k: nat)
    requires j <= k <= |draws|
    ensures start <= Probe(start, draws, j) <= Probe(start, draws, k)
  {
    if k > 0 && j < k {
      ProbesNeverDecrease(start, draws, j, k - 1);
    } else if k > 0 {
      ProbesNeverDecrease(start, draws, k - 1, k - 1);
    }
  }

  /** The random increments reach an unused id within the draws given. */
  predicate ReachesFreeId(active: map<string, nat>, start: nat, draws: seq<nat>)
  {
    exists k :: 0 <= k <= |draws| && NatToString(Probe(start, draws, k)) !in active
  }

  // ---------------------------------------------------------------------
  // Launch arguments
  // ---------------------------------------------------------------------

  /** The options the controller passes to `audience()`. */
  datatype LaunchOptions = LaunchOptions(
    win: Option<seq<string>>,
    mac: Option<seq<string>>,
    unix: Option<seq<string>>,
    icons: Option<seq<string>>,
    debug: bool)

  /** The channel path: a named pipe on Windows, a file under /tmp elsewhere. */
  function SocketPath(isWindows: bool, now: nat, pid: nat): (path: string)
    ensures isWindows ==> |path| > 9 && path[..9] == "\\\\.\\pipe\\"
    ensures !isWindows ==> |path| > 5 && path[..5] == "/tmp/"
  {
    var prefix := if isWindows then "\\\\.\\pipe\\" else "/tmp/";
    var path := prefix + ("audience_" + NatToString(now) + "_" + NatToString(pid));
    assert path[..|prefix|] == prefix;
    path
  }

  /** A flag and its comma-joined values when the option is given (an
      empty array is given: it is truthy). */
  function FlagPair(flag: string, values: Option<seq<string>>): seq<string>
  {
    if values.Some? then [flag, JoinComma(values.value)] else []
  }

  /** The argument list of `child_process.spawn`. */
  function SpawnArgs(socketPath: string, options: Option<LaunchOptions>): (args: seq<string>)
    ensures |args| >= 2 && args[0] == "--channel" && args[1] == socketPath
  {
    ["--channel", socketPath]
      + (if options.Some? then FlagPair("--win", options.value.win) else [])
      + (if options.Some? then FlagPair("--mac", options.value.mac) else [])
      + (if options.Some? then FlagPair("--unix", options.value.unix) else [])
      + (if options.Some? then FlagPair("--icons", options.value.icons) else [])
  }

  /** The optional flags in their fixed order, with the option each takes. */
  function FlagTable(options: Option<LaunchOptions>): seq<(string, Option<seq<string>>)>
  {
    if options.None? then []
    else [("--win", options.value.win), ("--mac", options.value.mac),
          ("--unix", options.value.unix), ("--icons", options.value.icons)]
  }

  /** The entries of a flag table whose option is given, in table order. */
  function Given(table: seq<(string, Option<seq<string>>)>): (g: seq<(string, seq<string>)>)
    ensures |g| <= |table|
  {
    if |table| == 0 then []
    else (if table[0].1.Some? then [(table[0].0, table[0].1.value)] else []) + Given(table[1..])
  }

  function TableArgs(table: seq<(string, Option<seq<string>>)>): seq<string>
  {
    if |table| == 0 then [] else FlagPair(table[0].0, table[0].1) + TableArgs(table[1..])
  }

  lemma {:induction false} TableArgsLayout(table: seq<(string, Option<seq<string>>)>)
    ensures var a := TableArgs(table); var g := Given(table);
      |a| == 2 * |g| &&
      forall k :: 0 <= k < |g| ==> a[2 * k] == g[k].0 && a[2 * k + 1] == JoinComma(g[k].1)
  {
    if |table| > 0 {
      TableArgsLayout(table[1..]);
      var a := TableArgs(table);
      var g := Given(table);
      if table[0].1.Some? {
        forall k | 1 <= k < |g| ensures a[2 * k] == g[k].0 && a[2 * k + 1] == JoinComma(g[k].1) {
          assert g[k] == Given(table[1..])[k - 1];
          assert a[2 * k] == TableArgs(table[1..])[2 * (k - 1)];
          assert a[2 * k + 1] == TableArgs(table[1..])[2 * (k - 1) + 1];
        }
      } else {
        assert a == TableArgs(table[1..]);
        assert g == Given(table[1..]);
      }
    }
  }

  /** The launch arguments are `--channel <path>` followed, in the order
      win, mac, unix, icons, by one flag and comma-joined value pair for
      each option that is given, and by nothing else. */
  lemma SpawnArgsLayout(socketPath: string, options: Option<LaunchOptions>)
    ensures var a := SpawnArgs(socketPath, options); var g := Given(FlagTable(options));
      |a| == 2 + 2 * |g| && a[..2] == ["--channel", socketPath] &&
      forall k :: 0 <= k < |g| ==> a[2 + 2 * k] == g[k].0 && a[3 + 2 * k] == JoinComma(g[k].1)
  {
    var t := FlagTable(options);
    TableArgsLayout(t);
    SpawnArgsAsTable(socketPath, options);
    var a := SpawnArgs(socketPath, options);
    var g := Given(t);
    forall k | 0 <= k < |g| ensures a[2 + 2 * k] == g[k].0 && a[3 + 2 * k] == JoinComma(g[k].1) {
      assert a[2 + 2 * k] == TableArgs(t)[2 * k];
      assert a[3 + 2 * k] == TableArgs(t)[2 * k + 1];
    }
  }

  lemma SpawnArgsAsTable(socketPath: string, options: Option<LaunchOptions>)
    ensures SpawnArgs(socketPath, options) == ["--channel", socketPath] + TableArgs(FlagTable(options))
  {
    if options.Some? {
      var o := options.value;
      var e0, e1, e2, e3 := ("--win", o.win), ("--mac", o.mac), ("--unix", o.unix), ("--icons", o.icons);
      TableArgsCons(e3, []);
      TableArgsCons(e2, [e3]);
      TableArgsCons(e1, [e2, e3]);
      TableArgsCons(e0, [e1, e2, e3]);
    }
  }

  lemma TableArgsCons(entry: (string, Option<seq<string>>), rest: seq<(string, Option<seq<string>>)>)
    ensures TableArgs([entry] + rest) == FlagPair(entry.0, entry.1) + TableArgs(rest)
  {
    assert ([entry] + rest)[1..] == rest;
  }

  /** The concatenation of argument arrays, as the spread syntax means it. */
  function Flatten(parts: seq<seq<string>>): (r: seq<string>)
  {
    if |parts| == 0 then [] else Flatten(parts[..|parts| - 1]) + parts[|parts| - 1]
  }

  function TotalLength(parts: seq<seq<string>>): (n: nat)
    ensures n == |Flatten(parts)|
  {
    if |parts| == 0 then 0 else TotalLength(parts[..|parts| - 1]) + |parts[|parts| - 1]|
  }

  /** The compiled client builds the argument list with `__spreadArrays`:
      one pass sums the lengths, a second copies element by element into an
      array of that size. The result is the concatenation of the parts. */
  method SpreadArrays(parts: seq<seq<string>>) returns (r: array<string>)
    ensures r[..] == Flatten(parts)
  {
    var s := 0;
    var i := 0;
    while i < |parts|
      invariant 0 <= i <= |parts|
      invariant s == TotalLength(parts[..i])
    {
      assert parts[..i + 1][..i] == parts[..i];
      s := s + |parts[i]|;
      i := i + 1;
    }
    assert parts[..|parts|] == parts;
    r := new string[s](_ => "");
    var k := 0;
    i := 0;
    while i < |parts|
      invariant 0 <= i <= |parts|
      invariant k == |Flatten(parts[..i])| && k <= s
      invariant r[..k] == Flatten(parts[..i])
    {
      assert parts[..i + 1][..i] == parts[..i];
      assert Flatten(parts[..i + 1]) == Flatten(parts[..i]) + parts[i];
      assert k + |parts[i]| <= s by {
        FlattenPrefixLength(parts, i + 1);
      }
      var a := parts[i];
      var j := 0;
      while j < |a|
        invariant 0 <= j <= |a|
        invariant k == |Flatten(parts[..i])| + j && k <= s
        invariant r[..k] == Flatten(parts[..i]) + a[..j]
      {
        r[k] := a[j];
        assert a[..j + 1] == a[..j] + [a[j]];
        j := j + 1;
        k := k + 1;
      }
      assert a[..j] == a;
      i := i + 1;
    }
    assert r[..] == r[..k];
  }

  lemma {:induction false} FlattenPrefixLength(parts: seq<seq<string>>, i: nat)
    requires i <= |parts|
    ensures |Flatten(parts[..i])| <= |Flatten(parts)|
    decreases |parts| - i
  {
    if i < |parts| {
      FlattenPrefixLength(parts, i + 1);
      assert parts[..i + 1][..i] == parts[..i];
    } else {
      assert parts[..i] == parts;
    }
  }

  lemma FlattenAppend(parts: seq<seq<string>>, last: seq<string>)
    ensures Flatten(parts + [last]) == Flatten(parts) + last
  {
    assert (parts + [last])[..|parts|] == parts;
  }

  /** The compiled client spreads the same five parts the source lists, so
      both forms launch the runtime with the same arguments. */
  lemma SpreadFormMatchesSource(socketPath: string, options: Option<LaunchOptions>)
    ensures SpawnArgs(socketPath, options) == Flatten([
      ["--channel", socketPath],
      if options.Some? then FlagPair("--win", options.value.win) else [],
      if options.Some? then FlagPair("--mac", options.value.mac) else [],
      if options.Some? then FlagPair("--unix", options.value.unix) else [],
      if options.Some? then FlagPair("--icons", options.value.icons) else []])
  {
    var a0 := ["--channel", socketPath];
    var a1 := if options.Some? then FlagPair("--win", options.value.win) else [];
    var a2 := if options.Some? then FlagPair("--mac", options.value.mac) else [];
    var a3 := if options.Some? then FlagPair("--unix", options.value.unix) else [];
    var a4 := if options.Some? then FlagPair("--icons", options.value.icons) else [];
    assert Flatten([a0]) == a0 by {
      FlattenAppend([], a0);
      assert [] + [a0] == [a0];
    }
    assert Flatten([a0, a1]) == a0 + a1 by {
      FlattenAppend([a0], a1);
      assert [a0] + [a1] == [a0, a1];
    }
    assert Flatten([a0, a1, a2]) == a0 + a1 + a2 by {
      FlattenAppend([a0, a1], a2);
      assert [a0, a1] + [a2] == [a0, a1, a2];
    }
    assert Flatten([a0, a1, a2, a3]) == a0 + a1 + a2 + a3 by {
      FlattenAppend([a0, a1, a2], a3);
      assert [a0, a1, a2] + [a3] == [a0, a1, a2, a3];
    }
    assert Flatten([a0, a1, a2, a3, a4]) == a0 + a1 + a2 + a3 + a4 by {
      FlattenAppend([a0, a1, a2, a3], a4);
      assert [a0, a1, a2, a3] + [a4] == [a0, a1, a2, a3, a4];
    }
  }

  // ---------------------------------------------------------------------
  // The API calls and the command each dispatches
  // ---------------------------------------------------------------------

  datatype ApiCall =
    | ScreenList
    | WindowList
    | WindowCreate(details: Json)
    | WindowUpdatePosition(handle: int, x: int, y: int, width: int, height: int)
    | WindowPostMessage(handle: int, message: string)
    | WindowDestroy(handle: int)
    | Quit

  /** The command function and arguments each API call dispatches. */
  function CommandFor(call: ApiCall): (c: (string, Option<Json>))
    ensures c.0 in ["screen_list", "window_list", "window_create", "window_update_position",
                    "window_post_message", "window_destroy", "quit"]
    ensures c.1.Some? <==> call.WindowCreate? || call.WindowUpdatePosition? || call.WindowPostMessage? || call.WindowDestroy?
    ensures call.WindowUpdatePosition? || call.WindowPostMessage? || call.WindowDestroy? ==>
      Get(c.1.value, "handle") == Some(JNum(call.handle))
  {
    match call
    case ScreenList => ("screen_list", None)
    case WindowList => ("window_list", None)
    case WindowCreate(d) => ("window_create", Some(d))
    case WindowUpdatePosition(h, x, y, w, ht) =>
      ("window_update_position", Some(JObj([("handle", JNum(h)), ("x", JNum(x)), ("y", JNum(y)),
                                            ("width", JNum(w)), ("height", JNum(ht))])))
    case WindowPostMessage(h, m) =>
      ("window_post_message", Some(JObj([("handle", JNum(h)), ("message", JStr(m))])))
    case WindowDestroy(h) => ("window_destroy", Some(JObj([("handle", JNum(h))])))
    case Quit => ("quit", None)
  }

  // ---------------------------------------------------------------------
  // Result and event processing helpers
  // ---------------------------------------------------------------------

  /** `data.id` as a key of `activeCommands`: only a string id can match. */
  function ResultId(data: Option<Json>): (r: Option<string>)
    ensures r.Some? <==> data.Some? && Get(data.value, "id").Some? && Get(data.value, "id").value.JStr?
  {
    if data.Some? then
      match Get(data.value, "id")
      case Some(JStr(s)) => Some(s)
      case _ => None
    else None
  }

  /** Resolve with `data.result` (absent when missing) or reject. */
  function Settle(name: string, data: Json): (s: Settlement)
    requires IsResultName(name)
    ensures s != Pending
    ensures name == "command_succeeded" <==> s == Resolved(Get(data, "result"))
    ensures name == "command_failed" <==> s == Rejected("command failed")
  {
    if name == "command_succeeded" then Resolved(Get(data, "result")) else Rejected("command failed")
  }

  /** One invocation of each callback with the event's data, in set order. */
  function Notify(callbacks: seq<CallbackId>, data: Option<Json>): (r: seq<(CallbackId, Option<Json>)>)
    ensures |r| == |callbacks|
    ensures forall i :: 0 <= i < |r| ==> r[i] == (callbacks[i], data)
  {
    seq(|callbacks|, i requires 0 <= i < |callbacks| => (callbacks[i], data))
  }

  /** Notifying a set (distinct callbacks) calls every registered callback
      exactly once and nothing else, always with the event's data. */
  lemma {:induction false} NotifyReachesEachOnce(callbacks: seq<CallbackId>, data: Option<Json>)
    requires Distinct(callbacks)
    ensures forall e :: e in Notify(callbacks, data) ==> e.1 == data && e.0 in callbacks
    ensures forall c :: multiset(Notify(callbacks, data))[(c, data)] == if c in callbacks then 1 else 0
  {
    if |callbacks| > 0 {
      var n := |callbacks| - 1;
      var front := callbacks[..n];
      assert Distinct(front);
      NotifyReachesEachOnce(front, data);
      assert Notify(callbacks, data) == Notify(front, data) + [(callbacks[n], data)];
      assert callbacks == front + [callbacks[n]];
      assert callbacks[n] !in front by {
        forall k | 0 <= k < n ensures front[k] != callbacks[n] {
          assert callbacks[k] != callbacks[n];
        }
      }
    }
  }

  /** `forEach` over one callback set: the callbacks are called in set
      order, and the first that throws ends the loop after its call. */
  method RunCallbacks(callbacks: seq<CallbackId>, data: Option<Json>, throws: CallbackId -> bool)
    returns (notified: seq<(CallbackId, Option<Json>)>, failed: bool)
    ensures failed <==> exists k :: 0 <= k < |callbacks| && throws(callbacks[k])
    ensures failed ==>
      exists k :: 0 <= k < |callbacks| && throws(callbacks[k]) &&
        (forall j :: 0 <= j < k ==> !throws(callbacks[j])) && notified == Notify(callbacks[..k + 1], data)
    ensures !failed ==> notified == Notify(callbacks, data)
  {
    notified := [];
    var i := 0;
    while i < |callbacks|
      invariant 0 <= i <= |callbacks|
      invariant notified == Notify(callbacks[..i], data)
      invariant forall j :: 0 <= j < i ==> !throws(callbacks[j])
    {
      assert Notify(callbacks[..i + 1], data) == Notify(callbacks[..i], data) + [(callbacks[i], data)];
      notified := notified + [(callbacks[i], data)];
      if throws(callbacks[i]) {
        return notified, true;
      }
      i := i + 1;
    }
    assert callbacks[..i] == callbacks;
    failed := false;
  }

  /** What `off` leaves of one callback set. */
  function Cleared(callbacks: seq<CallbackId>, callback: Option<CallbackId>): (r: seq<CallbackId>)
    ensures callback.None? ==> r == []
    ensures callback.Some? ==> callback.value !in r
    ensures callback.Some? ==> forall c :: c != callback.value ==> (c in r <==> c in callbacks)
  {
    if callback.Some? then Delete(callbacks, callback.value) else []
  }

  /** The id search of `dispatchCommand`: from the clock value `now`, add
      the next increment while the decimal text is a pending id. The result
      is the first probe whose text is free. */
  method FindFreeId(active: map<string, nat>, now: nat, draws: seq<nat>) returns (idNo: nat)
    requires ReachesFreeId(active, now, draws)
    ensures idNo >= now && NatToString(idNo) !in active
    ensures exists k :: 0 <= k <= |draws| && idNo == Probe(now, draws, k) &&
                        (forall j :: 0 <= j < k ==> NatToString(Probe(now, draws, j)) in active)
  {
    var i := 0;
    idNo := now;
    while NatToString(idNo) in active
      invariant 0 <= i <= |draws|
      invariant idNo == Probe(now, draws, i)
      invariant forall j :: 0 <= j < i ==> NatToString(Probe(now, draws, j)) in active
      decreases |draws| - i
    {
      if i == |draws| {
        assert false;
      }
      idNo := idNo + draws[i];
      i := i + 1;
    }
    ProbesNeverDecrease(now, draws, 0, i);
  }

  /** The four names are distinct (their lengths are). */
  lemma EventNamesDistinct()
    ensures forall i, j | 0 <= i < j < |EventNames| :: EventNames[i] != EventNames[j]
  {
    assert |EventNames[0]| == 14 && |EventNames[1]| == 19 && |EventNames[2]| == 12 && |EventNames[3]| == 8;
  }

  /** The registry after `off` has visited every name. */
  function ClearedAll(registry: map<string, seq<CallbackId>>, callback: Option<CallbackId>)
    : (r: map<string, seq<CallbackId>>)
  {
    map name | name in registry :: Cleared(registry[name], callback)
  }

  /** The loop of `off` over the four names. */
  method ClearEach(registry: map<string, seq<CallbackId>>, callback: Option<CallbackId>)
    returns (r: map<string, seq<CallbackId>>)
    requires registry.Keys == EventNameSet
    ensures r == ClearedAll(registry, callback)
  {
    EventNamesDistinct();
    r := registry;
    var i := 0;
    while i < |EventNames|
      invariant 0 <= i <= |EventNames|
      invariant r.Keys == EventNameSet
      invariant forall k | 0 <= k < |EventNames| ::
        r[EventNames[k]] == if k < i then Cleared(registry[EventNames[k]], callback) else registry[EventNames[k]]
    {
      var name := EventNames[i];
      r := r[name := Cleared(r[name], callback)];
      i := i + 1;
    }
    EveryNameCleared(registry, r, callback);
  }

  /** A registry cleared name by name is the registry cleared at once. */
  lemma EveryNameCleared(before: map<string, seq<CallbackId>>, after: map<string, seq<CallbackId>>,
                         callback: Option<CallbackId>)
    requires before.Keys == after.Keys == EventNameSet
    requires forall k | 0 <= k < |EventNames| :: after[EventNames[k]] == Cleared(before[EventNames[k]], callback)
    ensures after == ClearedAll(before, callback)
  {
    forall name | name in after ensures after[name] == Cleared(before[name], callback) {
      var k :| 0 <= k < |EventNames| && EventNames[k] == name;
    }
  }

  /** `off` keeps the four names and every set a set; `off(cb)` leaves `cb`
      in no set and every other callback where it was; `off()` leaves every
      set empty. */
  lemma OffKeepsRegistry(registry: map<string, seq<CallbackId>>, callback: Option<CallbackId>)
    requires forall name | name in registry :: Distinct(registry[name])
    ensures var r := ClearedAll(registry, callback);
      && r.Keys == registry.Keys
      && (forall name | name in r :: Distinct(r[name]))
      && (callback.Some? ==> forall name | name in r :: callback.value !in r[name])
      && (callback.Some? ==> forall name, c | name in r && c != callback.value :: c in r[name] <==> c in registry[name])
      && (callback.None? ==> forall name | name in r :: r[name] == [])
  {
    forall name | name in registry
      ensures Distinct(ClearedAll(registry, callback)[name])
    {
      if callback.Some? {
        DeleteKeepsDistinct(registry[name], callback.value);
      }
    }
  }

  /** The registry has exactly the four names, each a set. */
  ghost predicate RegistryOk(handlers: map<string, seq<CallbackId>>)
  {
    && handlers.Keys == EventNameSet
    && (forall name | name in handlers :: Distinct(handlers[name]))
  }

  /** A promise is pending exactly when one id of the table refers to it. */
  ghost predicate TableOk(activeCommands: map<string, nat>, promises: seq<Settlement>)
  {
    && (forall id | id in activeCommands ::
          activeCommands[id] < |promises| && promises[activeCommands[id]] == Pending)
    && (forall id1, id2 | id1 in activeCommands && id2 in activeCommands &&
          activeCommands[id1] == activeCommands[id2] :: id1 == id2)
    && (forall p | 0 <= p < |promises| && promises[p] == Pending :: p in activeCommands.Values)
  }

  /** Recording a new pending promise under a fresh id keeps the table
      consistent. */
  lemma DispatchKeepsTable(active: map<string, nat>, promises: seq<Settlement>, id: string)
    requires TableOk(active, promises) && id !in active
    ensures TableOk(active[id := |promises|], promises + [Pending])
  {
    var a := active[id := |promises|];
    var ps := promises + [Pending];
    forall p | 0 <= p < |ps| && ps[p] == Pending
      ensures p in a.Values
    {
      if p < |promises| {
        assert p in active.Values;
        var other :| other in active && active[other] == p;
        assert a[other] == p;
      } else {
        assert a[id] == p;
      }
    }
  }

  /** Removing a pending id and settling its promise keeps the table
      consistent. */
  lemma SettleKeepsTable(active: map<string, nat>, promises: seq<Settlement>, key: string, s: Settlement)
    requires TableOk(active, promises) && key in active && s != Pending
    ensures TableOk(active - {key}, promises[active[key] := s])
  {
    var a := active - {key};
    var ps := promises[active[key] := s];
    forall q | 0 <= q < |ps| && ps[q] == Pending
      ensures q in a.Values
    {
      assert q != active[key];
      assert q in active.Values;
      var other :| other in active && active[other] == q;
      assert other != key;
      assert a[other] == q;
    }
  }

  class Client {
    /** Pending commands: id to the index of its promise in `promises`. */
    var activeCommands: map<string, nat>
    var promises: seq<Settlement>
    var handlers: map<string, seq<CallbackId>>
    /** Every line written to the runtime, in order. */
    var written: seq<string>
    /** Every callback invocation, in order. */
    var calls: seq<(CallbackId, Option<Json>)>
    var serverClosed: bool
    var exitResolved: bool

    /** The registry has exactly the four names, each a set; a promise is
        pending exactly when one id of the table refers to it. */
    ghost predicate Valid()
      reads this
    {
      RegistryOk(handlers) && TableOk(activeCommands, promises)
    }

    constructor ()
      ensures Valid()
      ensures activeCommands == map[] && promises == [] && written == [] && calls == []
      ensures forall name | name in EventNameSet :: name in handlers && handlers[name] == []
      ensures !serverClosed && !exitResolved
    {
      activeCommands := map[];
      promises := [];
      handlers := map["window_message" := [], "window_close_intent" := [],
                      "window_close" := [], "app_quit" := []];
      written := [];
      calls := [];
      serverClosed := false;
      exitResolved := false;
    }

    /** `dispatchCommand`: starts at `now` (the clock) and adds the rounded
        random increments `draws` until the decimal id is unused, then
        records a pending promise under that id and writes the command line. */
    method DispatchCommand(func: string, args: Option<Json>, now: nat, draws: seq<nat>)
      returns (promise: nat, id: string, idNo: nat)
      requires Valid()
      requires forall i :: 0 <= i < |draws| ==> draws[i] <= 100
      requires ReachesFreeId(activeCommands, now, draws)
      modifies this
      ensures Valid()
      ensures idNo >= now && id == NatToString(idNo) && id !in old(activeCommands)
      ensures activeCommands == old(activeCommands)[id := promise]
      ensures promise == |old(promises)| && promises == old(promises) + [Pending]
      ensures written == old(written) + [CommandLine(id, func, args)]
      ensures handlers == old(handlers) && calls == old(calls)
      ensures serverClosed == old(serverClosed) && exitResolved == old(exitResolved)
    {
      idNo := FindFreeId(activeCommands, now, draws);
      id := NatToString(idNo);
      promise := |promises|;
      activeCommands := activeCommands[id := promise];
      promises := promises + [Pending];
      written := written + [CommandLine(id, func, args)];
      DispatchKeepsTable(old(activeCommands), old(promises), id);
    }

    /** One of the seven API calls: dispatch its command. */
    method Call(call: ApiCall, now: nat, draws: seq<nat>) returns (promise: nat, id: string)
      requires Valid()
      requires forall i :: 0 <= i < |draws| ==> draws[i] <= 100
      requires ReachesFreeId(activeCommands, now, draws)
      modifies this
      ensures Valid()
      ensures id !in old(activeCommands) && activeCommands == old(activeCommands)[id := promise]
      ensures promises == old(promises) + [Pending] && promise == |old(promises)|
      ensures exists idNo: nat :: idNo >= now && id == NatToString(idNo)
      ensures written == old(written) + [CommandLine(id, CommandFor(call).0, CommandFor(call).1)]
      ensures handlers == old(handlers) && calls == old(calls)
      ensures serverClosed == old(serverClosed) && exitResolved == old(exitResolved)
    {
      var c := CommandFor(call);
      var idNo;
      promise, id, idNo := DispatchCommand(c.0, c.1, now, draws);
    }

    /** `processEvent` for one parsed line `{name, data}` (`data` absent when
        the line has none). A result for a pending id removes the id, then
        settles its promise; a result for any other id changes nothing; a
        registered event name calls its callbacks in set order, and the
        first callback that throws (`throws`) ends `forEach` and the call
        with its exception. Reading `data.id` of an absent or null `data`
        throws. */
    method ProcessEvent(name: string, data: Option<Json>, throws: CallbackId -> bool) returns (r: Outcome)
      requires Valid()
      modifies this
      ensures Valid()
      ensures written == old(written) && handlers == old(handlers)
      ensures serverClosed == old(serverClosed) && exitResolved == old(exitResolved)
      ensures IsResultName(name) && (data.None? || data.value == JNull) ==>
        r.Fail? && activeCommands == old(activeCommands) && promises == old(promises) && calls == old(calls)
      ensures IsResultName(name) && data.Some? && data.value != JNull ==> r == Pass && calls == old(calls)
      ensures (IsResultName(name) && data.Some? && data.value != JNull &&
               ResultId(data).Some? && ResultId(data).value in old(activeCommands)) ==>
          activeCommands == old(activeCommands) - {ResultId(data).value} &&
          promises == old(promises)[old(activeCommands)[ResultId(data).value] := Settle(name, data.value)]
      ensures IsResultName(name) && !(ResultId(data).Some? && ResultId(data).value in old(activeCommands)) ==>
        activeCommands == old(activeCommands) && promises == old(promises)
      ensures !IsResultName(name) ==> activeCommands == old(activeCommands) && promises == old(promises)
      ensures !IsResultName(name) && name in EventNameSet ==>
        var cbs := handlers[name];
        if exists k :: 0 <= k < |cbs| && throws(cbs[k]) then
          exists k :: 0 <= k < |cbs| && throws(cbs[k]) && (forall j :: 0 <= j < k ==> !throws(cbs[j])) &&
            r.Fail? && calls == old(calls) + Notify(cbs[..k + 1], data)
        else
          r == Pass && calls == old(calls) + Notify(cbs, data)
      ensures !IsResultName(name) && name !in EventNameSet ==> r == Pass && calls == old(calls)
    {
      if IsResultName(name) {
        if data.None? || data.value == JNull {
          return Fail("TypeError: Cannot read property 'id'");
        }
        var key := ResultId(data);
        if key.Some? && key.value in activeCommands {
          var p := activeCommands[key.value];
          activeCommands := activeCommands - {key.value};
          promises := promises[p := Settle(name, data.value)];
          SettleKeepsTable(old(activeCommands), old(promises), key.value, Settle(name, data.value));
        }
        r := Pass;
      } else if name in handlers {
        var notified, failed := RunCallbacks(handlers[name], data, throws);
        calls := calls + notified;
        r := if failed then Fail(CallbackThrew) else Pass;
      } else {
        r := Pass;
      }
    }

    /** `eventHandler.get(name).add(callback)`. */
    method On(name: string, callback: CallbackId)
      requires Valid() && name in EventNameSet
      modifies this
      ensures Valid()
      ensures handlers == old(handlers)[name := Add(old(handlers)[name], callback)]
      ensures activeCommands == old(activeCommands) && promises == old(promises)
      ensures written == old(written) && calls == old(calls)
      ensures serverClosed == old(serverClosed) && exitResolved == old(exitResolved)
    {
      handlers := handlers[name := Add(handlers[name], callback)];
    }

    method OnWindowMessage(callback: CallbackId)
      requires Valid()
      modifies this
      ensures Valid()
      ensures handlers == old(handlers)["window_message" := Add(old(handlers)["window_message"], callback)]
      ensures activeCommands == old(activeCommands) && promises == old(promises)
      ensures written == old(written) && calls == old(calls)
      ensures serverClosed == old(serverClosed) && exitResolved == old(exitResolved)
    {
      On("window_message", callback);
    }

    method OnWindowCloseIntent(callback: CallbackId)
      requires Valid()
      modifies this
      ensures Valid()
      ensures handlers == old(handlers)["window_close_intent" := Add(old(handlers)["window_close_intent"], callback)]
      ensures activeCommands == old(activeCommands) && promises == old(promises)
      ensures written == old(written) && calls == old(calls)
      ensures serverClosed == old(serverClosed) && exitResolved == old(exitResolved)
    {
      On("window_close_intent", callback);
    }

    method OnWindowClose(callback: CallbackId)
      requires Valid()
      modifies this
      ensures Valid()
      ensures handlers == old(handlers)["window_close" := Add(old(handlers)["window_close"], callback)]
      ensures activeCommands == old(activeCommands) && promises == old(promises)
      ensures written == old(written) && calls == old(calls)
      ensures serverClosed == old(serverClosed) && exitResolved == old(exitResolved)
    {
      On("window_close", callback);
    }

    method OnAppQuit(callback: CallbackId)
      requires Valid()
      modifies this
      ensures Valid()
      ensures handlers == old(handlers)["app_quit" := Add(old(handlers)["app_quit"], callback)]
      ensures activeCommands == old(activeCommands) && promises == old(promises)
      ensures written == old(written) && calls == old(calls)
      ensures serverClosed == old(serverClosed) && exitResolved == old(exitResolved)
    {
      On("app_quit", callback);
    }

    /** `off(callback)` deletes the callback from every set; `off()` clears
        every set. The four names stay. */
    method Off(callback: Option<CallbackId>)
      requires Valid()
      modifies this
      ensures Valid()
      ensures handlers == ClearedAll(old(handlers), callback)
      ensures activeCommands == old(activeCommands) && promises == old(promises)
      ensures written == old(written) && calls == old(calls)
      ensures serverClosed == old(serverClosed) && exitResolved == old(exitResolved)
    {
      ghost var before := handlers;
      handlers := ClearEach(handlers, callback);
      OffKeepsRegistry(before, callback);
    }

    /** The runtime process exited: the server closes and the promise
        `futureExit()` returns resolves. */
    method OnProcessExit()
      modifies this
      ensures serverClosed && exitResolved
      ensures activeCommands == old(activeCommands) && promises == old(promises)
      ensures handlers == old(handlers) && written == old(written) && calls == old(calls)
    {
      serverClosed := true;
      exitResolved := true;
    }
  }
}
