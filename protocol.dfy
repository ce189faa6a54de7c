/** The two ends of the control channel together: a command line the
    controller-side client writes is framed by the runtime into exactly one
    command, which the runtime answers with exactly one reply carrying the
    client's id; the reply's event, printed as one line, settles the
    client's pending promise with the command's result or rejects it. */
module Protocol {
  import opened Wrappers
  import opened Json
  import opened Framing
  import opened ChannelCommands
  import opened RuntimeChannel
  import NodeClient

  /** The runtime frames a client's command line into exactly the printed
      command object and holds nothing back. */
  lemma ClientLineFramesToCommand(id: string, func: string, args: Option<Json>)
    ensures Lines(NodeClient.CommandLine(id, func, args)) == [Dump(NodeClient.CommandObject(id, func, args))]
    ensures Tail(NodeClient.CommandLine(id, func, args)) == ""
  {
    var text := Dump(NodeClient.CommandObject(id, func, args));
    DumpIsOneLine(NodeClient.CommandObject(id, func, args));
    assert |text| > 0 by {
      assert text[0] == '{';
    }
    FramingRecoversLines([text]);
    assert Terminated([text]) == text + "\n" by {
      assert [text][1..] == [];
    }
  }

  /** A command the client dispatches for an API call is answered with
      one reply carrying the client's id, by the branch of the function the
      call names (always one the runtime knows); every call but
      `window_create` succeeds, since the client always sends the handle
      and coordinates as numbers and the message as a string. */
  lemma RuntimeAnswersClientCall(call: NodeClient.ApiCall, id: string, env: Env)
    ensures var c := NodeClient.CommandFor(call);
      var r := ExecuteCommand(Some(NodeClient.CommandObject(id, c.0, c.1)), env);
      && c.0 in KnownFunctions
      && r.Some?
      && r.value.1.id == id
      && (!call.WindowCreate? ==> r.value.1.Succeeded?)
  {
    var c := NodeClient.CommandFor(call);
    CommandReachesBranch(id, c.0, c.1, env);
    ClientArgumentsConvert(call, env);
  }

  /** The client's command object is executed by the branch of its
      function, with its arguments (an empty object when it has none), and
      the reply carries its id. */
  lemma CommandReachesBranch(id: string, func: string, args: Option<Json>, env: Env)
    ensures var r := ExecuteCommand(Some(NodeClient.CommandObject(id, func, args)), env);
      && r.Some?
      && r.value.1.id == id
      && (r.value.1.Succeeded? <==> Dispatch(func, if args.Some? then args.value else JObj([]), env).1.Ok?)
  {
    var command := NodeClient.CommandObject(id, func, args);
    assert CommandId(command) == id;
    assert Perform(command, env) == Dispatch(func, if args.Some? then args.value else JObj([]), env);
  }

  /** The arguments the client sends for every call but `window_create`
      convert without error. */
  lemma ClientArgumentsConvert(call: NodeClient.ApiCall, env: Env)
    ensures var c := NodeClient.CommandFor(call);
      !call.WindowCreate? ==> Dispatch(c.0, if c.1.Some? then c.1.value else JObj([]), env).1.Ok?
  {
    match call
    case WindowUpdatePosition(h, x, y, w, ht) =>
      PositionArgumentsConvert(NodeClient.CommandFor(call).1.value, h, x, y, w, ht);
    case WindowPostMessage(h, m) =>
      MessageArgumentsConvert(NodeClient.CommandFor(call).1.value, h, m);
    case WindowDestroy(h) =>
      HandleCommandsSucceed(NodeClient.CommandFor(call).1.value);
    case _ =>
  }

  lemma PositionArgumentsConvert(a: Json, h: int, x: int, y: int, w: int, ht: int)
    requires a == JObj([("handle", JNum(h)), ("x", JNum(x)), ("y", JNum(y)), ("width", JNum(w)), ("height", JNum(ht))])
    ensures UpdatePositionCommand(a).1.Ok?
  {
    PositionArgumentsFound(a, h, x, y, w, ht);
    HandleCommandsSucceed(a);
  }

  lemma PositionArgumentsFound(a: Json, h: int, x: int, y: int, w: int, ht: int)
    requires a == JObj([("handle", JNum(h)), ("x", JNum(x)), ("y", JNum(y)), ("width", JNum(w)), ("height", JNum(ht))])
    ensures Get(a, "handle") == Some(JNum(h)) && Get(a, "x") == Some(JNum(x)) && Get(a, "y") == Some(JNum(y))
    ensures Get(a, "width") == Some(JNum(w)) && Get(a, "height") == Some(JNum(ht))
  {
    var t4 := [("height", JNum(ht))];
    var t3 := [("width", JNum(w))] + t4;
    var t2 := [("y", JNum(y))] + t3;
    var t1 := [("x", JNum(x))] + t2;
    assert a.members == [("handle", JNum(h))] + t1;
    assert "handle"[1] != "height"[1] && "x"[0] != "y"[0];
    LookupCons(("handle", JNum(h)), t1, "handle");
    LookupCons(("handle", JNum(h)), t1, "x");
    LookupCons(("x", JNum(x)), t2, "x");
    LookupCons(("handle", JNum(h)), t1, "y");
    LookupCons(("x", JNum(x)), t2, "y");
    LookupCons(("y", JNum(y)), t3, "y");
    LookupCons(("handle", JNum(h)), t1, "width");
    LookupCons(("x", JNum(x)), t2, "width");
    LookupCons(("y", JNum(y)), t3, "width");
    LookupCons(("width", JNum(w)), t4, "width");
    LookupCons(("handle", JNum(h)), t1, "height");
    LookupCons(("x", JNum(x)), t2, "height");
    LookupCons(("y", JNum(y)), t3, "height");
    LookupCons(("width", JNum(w)), t4, "height");
    LookupCons(("height", JNum(ht)), [], "height");
    assert t4 == [("height", JNum(ht))] + [];
  }

  lemma MessageArgumentsConvert(a: Json, h: int, m: string)
    requires a == JObj([("handle", JNum(h)), ("message", JStr(m))])
    ensures PostMessageCommand(a).1.Ok?
  {
    var t1 := [("message", JStr(m))];
    assert a.members == [("handle", JNum(h))] + t1;
    LookupCons(("handle", JNum(h)), t1, "handle");
    LookupCons(("handle", JNum(h)), t1, "message");
    LookupCons(("message", JStr(m)), [], "message");
    assert t1 == [("message", JStr(m))] + [];
  }

  /** The reply event of any reply is a result event whose id is the
      command's, and it settles the client's promise: resolved with the
      result for a success, rejected for a failure. */
  lemma ReplySettlesPromise(r: Reply)
    ensures var e := ReplyEvent(r);
      && NodeClient.IsResultName(e.0)
      && NodeClient.ResultId(Some(e.1)) == Some(r.id)
      && NodeClient.Settle(e.0, e.1) ==
         (if r.Succeeded? then NodeClient.Resolved(r.result) else NodeClient.Rejected("command failed"))
  {
  }

  /** End to end: the client's command line for an API call, received by
      the runtime and executed (with a parser that reads the printed command
      back), yields exactly one reply, which carries the client's id. */
  lemma OneCallOneReply(call: NodeClient.ApiCall, id: string, parse: string -> Option<Json>,
                        env: nat -> Env, start: nat)
    requires var c := NodeClient.CommandFor(call);
      var command := NodeClient.CommandObject(id, c.0, c.1);
      parse(Dump(command)) == Some(command)
    ensures var c := NodeClient.CommandFor(call);
      var run := Executed(Lines(NodeClient.CommandLine(id, c.0, c.1)), parse, env, start);
      |run.1| == 1 && run.1[0].id == id
  {
    var c := NodeClient.CommandFor(call);
    var command := NodeClient.CommandObject(id, c.0, c.1);
    ClientLineFramesToCommand(id, c.0, c.1);
    var commands := [Dump(command)];
    RuntimeAnswersClientCall(call, id, env(start));
    var r := ExecuteCommand(Some(command), env(start));
    var outs := Outcomes(commands, ExecuteCommand, parse, env, start);
    assert commands[..0] == [];
    assert outs == [r];
    assert [r][..0] == [];
    assert Folded(outs).1 == [] + [r.value.1];
  }
}
