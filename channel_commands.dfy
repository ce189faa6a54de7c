/** What the runtime does with one command line of the control channel:
    read `id`, `func` and `args` from the parsed object, validate the
    arguments of the named function, call into the library, and produce
    exactly one reply, `command_succeeded` or `command_failed`, carrying the
    command's id. The library calls are recorded as effects; their results
    (the screen and window lists, the handle of a new window) come from an
    environment record. Floating-point geometry is not modelled: numbers are
    integers. Error reasons raised by the JSON library follow its message
    format; the library itself is not part of this model. */
module ChannelCommands {
  import opened Wrappers
  import opened Json

  /** A window handle: a 16-bit unsigned number, 0 meaning "no window". */
  type Handle = h: nat | h < 0x1_0000

  datatype WebappType = Directory | Url

  /** The window details assembled by `window_create` (geometry aside). */
  datatype WindowDetails = WindowDetails(
    webappType: WebappType,
    location: string,
    loadingTitle: Option<string>,
    size: Option<seq<int>>,
    pos: Option<seq<int>>,
    notDecorated: bool,
    notResizable: bool,
    alwaysOnTop: bool,
    devMode: bool)

  /** A call from the command executor into the library. */
  datatype Effect =
    | ScreenListQuery
    | WindowListQuery
    | CreateWindow(details: WindowDetails)
    | UpdatePosition(handle: Handle, x: int, y: int, width: int, height: int)
    | PostMessage(handle: Handle, message: string)
    | Destroy(handle: Handle)
    | QuitApp

  /** What the library answers: the converted screen and window lists, and
      the handle `audience_window_create` returns (0 on failure). */
  datatype Env = Env(screens: Json, windows: Json, created: Handle)

  /** The one reply a parsable command gets. */
  datatype Reply = Succeeded(id: string, result: Option<Json>) | Failed(id: string, reason: string)

  const KnownFunctions: seq<string> := ["screen_list", "window_list", "window_create",
    "window_update_position", "window_post_message", "window_destroy", "quit"]

  const NeedLocation := "either dir or url argument required"
  const BadSize := "size needs to be formatted as width,height"
  const BadPos := "position needs to be formatted as x,y"
  const CreateFailed := "could not create window"
  const UnknownFunction := "unknown command function"

  // ---------------------------------------------------------------------
  // Reading typed values out of the parsed command
  // ---------------------------------------------------------------------

  function TypeName(j: Json): string
  {
    match j
    case JNull => "null"
    case JBool(_) => "boolean"
    case JNum(_) => "number"
    case JStr(_) => "string"
    case JArr(_) => "array"
    case JObj(_) => "object"
  }

  function TypeMustBe(expected: string, j: Json): string
  {
    "[json.exception.type_error.302] type must be " + expected + ", but is " + TypeName(j)
  }

  function KeyNotFound(key: string): string
  {
    "[json.exception.out_of_range.403] key '" + key + "' not found"
  }

  function CannotUseAt(j: Json): string
  {
    "[json.exception.type_error.304] cannot use at() with " + TypeName(j)
  }

  /** `args.count(key) > 0`: a non-object has no keys. */
  predicate Has(args: Json, key: string)
  {
    Get(args, key).Some?
  }

  /** `args.at(key)`: throws on a non-object and on a missing key. */
  function At(args: Json, key: string): (r: Result<Json>)
    ensures r.Ok? <==> Has(args, key)
    ensures r.Ok? ==> Get(args, key) == Some(r.value)
  {
    if !args.JObj? then Err(CannotUseAt(args))
    else match Get(args, key)
      case None => Err(KeyNotFound(key))
      case Some(v) => Ok(v)
  }

  function AsString(j: Json): (r: Result<string>)
    ensures r.Ok? <==> j.JStr?
    ensures r.Ok? ==> j == JStr(r.value)
  {
    if j.JStr? then Ok(j.s) else Err(TypeMustBe("string", j))
  }

  function AsBool(j: Json): (r: Result<bool>)
    ensures r.Ok? <==> j.JBool?
    ensures r.Ok? ==> j == JBool(r.value)
  {
    if j.JBool? then Ok(j.b) else Err(TypeMustBe("boolean", j))
  }

  /** An arithmetic conversion: numbers, and booleans as 0 or 1. */
  function AsNumber(j: Json): (r: Result<int>)
    ensures r.Ok? <==> j.JNum? || j.JBool?
    ensures j.JNum? ==> r == Ok(j.n)
  {
    match j
    case JNum(n) => Ok(n)
    case JBool(b) => Ok(if b then 1 else 0)
    case _ => Err(TypeMustBe("number", j))
  }

  /** A conversion to the 16-bit handle type keeps the low 16 bits. */
  function AsHandle(j: Json): (r: Result<Handle>)
    ensures r.Ok? <==> j.JNum? || j.JBool?
    ensures j.JNum? && 0 <= j.n < 0x1_0000 ==> r == Ok(j.n)
  {
    var n :- AsNumber(j);
    Ok(n % 0x1_0000)
  }

  /** A conversion to a vector of numbers: an array whose every element
      converts; the first element that does not gives the error. */
  function AsNumbers(j: Json): (r: Result<seq<int>>)
    ensures r.Ok? ==> j.JArr? && |r.value| == |j.items|
    ensures r.Ok? ==> forall i :: 0 <= i < |j.items| ==> AsNumber(j.items[i]) == Ok(r.value[i])
  {
    if !j.JArr? then Err(TypeMustBe("array", j)) else NumbersOf(j.items)
  }

  function NumbersOf(items: seq<Json>): (r: Result<seq<int>>)
    ensures r.Ok? ==> |r.value| == |items|
    ensures r.Ok? ==> forall i :: 0 <= i < |items| ==> AsNumber(items[i]) == Ok(r.value[i])
    ensures r.Ok? <==> forall i :: 0 <= i < |items| ==> AsNumber(items[i]).Ok?
  {
    if |items| == 0 then Ok([])
    else
      var first :- AsNumber(items[0]);
      var rest :- NumbersOf(items[1..]);
      assert forall i :: 1 <= i < |items| ==> items[i] == items[1..][i - 1];
      Ok([first] + rest)
  }

  /** An optional member: absent gives `None`, present must convert. */
  function OptionalString(args: Json, key: string): (r: Result<Option<string>>)
    ensures !Has(args, key) ==> r == Ok(None)
    ensures Has(args, key) && Get(args, key).value.JStr? ==> r == Ok(Some(Get(args, key).value.s))
  {
    if Has(args, key) then var s :- AsString(Get(args, key).value); Ok(Some(s)) else Ok(None)
  }

  function OptionalBool(args: Json, key: string): (r: Result<Option<bool>>)
    ensures !Has(args, key) ==> r == Ok(None)
    ensures Has(args, key) && Get(args, key).value.JBool? ==> r == Ok(Some(Get(args, key).value.b))
  {
    if Has(args, key) then var b :- AsBool(Get(args, key).value); Ok(Some(b)) else Ok(None)
  }

  /** `size` or `pos`: when given, an array of exactly two numbers. */
  function OptionalPair(args: Json, key: string, message: string): (r: Result<Option<seq<int>>>)
    ensures !Has(args, key) ==> r == Ok(None)
    ensures r.Ok? && r.value.Some? ==> |r.value.value| == 2
    ensures Has(args, key) && AsNumbers(Get(args, key).value).Ok? ==>
      (r.Ok? <==> |AsNumbers(Get(args, key).value).value| == 2)
    ensures (Has(args, key) && AsNumbers(Get(args, key).value).Ok? &&
             |AsNumbers(Get(args, key).value).value| != 2) ==> r == Err(message)
  {
    if Has(args, key) then
      var v :- AsNumbers(Get(args, key).value);
      if |v| != 2 then Err(message) else Ok(Some(v))
    else Ok(None)
  }

  // ---------------------------------------------------------------------
  // The command functions
  // ---------------------------------------------------------------------

  /** The web app of `window_create`: `dir`, then `url`, which wins when
      both are given; at least one of them is required. */
  function Location(args: Json): (r: Result<(WebappType, string)>)
    ensures !Has(args, "dir") && !Has(args, "url") ==> r == Err(NeedLocation)
  {
    if !Has(args, "dir") && !Has(args, "url") then Err(NeedLocation)
    else
      var dir :- OptionalString(args, "dir");
      var url :- OptionalString(args, "url");
      if url.Some? then Ok((Url, url.value)) else Ok((Directory, dir.value))
  }

  /** The details read after the screen query: size, position and styles. */
  function Layout(args: Json, location: (WebappType, string), title: Option<string>): Result<WindowDetails>
  {
    var size :- OptionalPair(args, "size", BadSize);
    var pos :- OptionalPair(args, "pos", BadPos);
    var decorated :- OptionalBool(args, "decorated");
    var resizable :- OptionalBool(args, "resizable");
    var top :- OptionalBool(args, "top");
    var dev :- OptionalBool(args, "dev");
    Ok(WindowDetails(location.0, location.1, title, size, pos,
                     decorated == Some(false), resizable == Some(false),
                     top == Some(true), dev == Some(true)))
  }

  /** `window_create`: the library calls made and the outcome. The screen
      list is queried once the location and title are read; a window is
      created only when every argument is valid, and a zero handle fails. */
  function CreateWindowCommand(args: Json, env: Env): (r: (seq<Effect>, Result<Option<Json>>))
    ensures |r.0| <= 2
    ensures |r.0| > 0 ==> r.0[0] == ScreenListQuery && Location(args).Ok?
    ensures |r.0| == 2 ==>
      && r.0[1].CreateWindow?
      && r.0[1].details.webappType == Location(args).value.0
      && r.0[1].details.location == Location(args).value.1
    ensures r.1.Ok? <==> |r.0| == 2 && env.created != 0
    ensures r.1.Ok? ==> r.1.value == Some(JNum(env.created))
  {
    match Location(args)
    case Err(e) => ([], Err(e))
    case Ok(location) =>
      match OptionalString(args, "title")
      case Err(e) => ([], Err(e))
      case Ok(title) =>
        match Layout(args, location, title)
        case Err(e) => ([ScreenListQuery], Err(e))
        case Ok(details) =>
          ([ScreenListQuery, CreateWindow(details)],
           if env.created == 0 then Err(CreateFailed) else Ok(Some(JNum(env.created))))
  }

  function UpdatePositionCommand(args: Json): (r: (seq<Effect>, Result<Option<Json>>))
    ensures r.1.Ok? <==> |r.0| == 1
    ensures r.1.Ok? ==> r.1.value.None?
    ensures |r.0| == 1 ==>
      && r.0[0].UpdatePosition?
      && Has(args, "handle") && AsHandle(Get(args, "handle").value) == Ok(r.0[0].handle)
      && Has(args, "x") && AsNumber(Get(args, "x").value) == Ok(r.0[0].x)
      && Has(args, "y") && AsNumber(Get(args, "y").value) == Ok(r.0[0].y)
      && Has(args, "width") && AsNumber(Get(args, "width").value) == Ok(r.0[0].width)
      && Has(args, "height") && AsNumber(Get(args, "height").value) == Ok(r.0[0].height)
  {
    match (var h :- At(args, "handle"); AsHandle(h))
    case Err(e) => ([], Err(e))
    case Ok(handle) =>
      match (var v :- At(args, "x"); AsNumber(v))
      case Err(e) => ([], Err(e))
      case Ok(x) =>
        match (var v :- At(args, "y"); AsNumber(v))
        case Err(e) => ([], Err(e))
        case Ok(y) =>
          match (var v :- At(args, "width"); AsNumber(v))
          case Err(e) => ([], Err(e))
          case Ok(width) =>
            match (var v :- At(args, "height"); AsNumber(v))
            case Err(e) => ([], Err(e))
            case Ok(height) => ([UpdatePosition(handle, x, y, width, height)], Ok(None))
  }

  function PostMessageCommand(args: Json): (r: (seq<Effect>, Result<Option<Json>>))
    ensures r.1.Ok? <==> |r.0| == 1
    ensures r.1.Ok? ==> r.1.value.None?
    ensures |r.0| == 1 ==>
      && r.0[0].PostMessage?
      && Has(args, "handle") && AsHandle(Get(args, "handle").value) == Ok(r.0[0].handle)
      && Has(args, "message") && Get(args, "message").value == JStr(r.0[0].message)
  {
    match (var h :- At(args, "handle"); AsHandle(h))
    case Err(e) => ([], Err(e))
    case Ok(handle) =>
      match (var m :- At(args, "message"); AsString(m))
      case Err(e) => ([], Err(e))
      case Ok(message) => ([PostMessage(handle, message)], Ok(None))
  }

  function DestroyCommand(args: Json): (r: (seq<Effect>, Result<Option<Json>>))
    ensures r.1.Ok? <==> |r.0| == 1
    ensures r.1.Ok? ==> r.1.value.None?
    ensures |r.0| == 1 ==>
      r.0[0].Destroy? && Has(args, "handle") && AsHandle(Get(args, "handle").value) == Ok(r.0[0].handle)
  {
    match (var h :- At(args, "handle"); AsHandle(h))
    case Err(e) => ([], Err(e))
    case Ok(handle) => ([Destroy(handle)], Ok(None))
  }

  /** The branch on the function name. */
  function Dispatch(func: string, args: Json, env: Env): (r: (seq<Effect>, Result<Option<Json>>))
    ensures func !in KnownFunctions ==> r == ([], Err(UnknownFunction))
    ensures func == "screen_list" ==> r == ([ScreenListQuery], Ok(Some(env.screens)))
    ensures func == "window_list" ==> r == ([WindowListQuery], Ok(Some(env.windows)))
    ensures func == "quit" ==> r == ([QuitApp], Ok(None))
  {
    if func == "screen_list" then ([ScreenListQuery], Ok(Some(env.screens)))
    else if func == "window_list" then ([WindowListQuery], Ok(Some(env.windows)))
    else if func == "window_create" then CreateWindowCommand(args, env)
    else if func == "window_update_position" then UpdatePositionCommand(args)
    else if func == "window_post_message" then PostMessageCommand(args)
    else if func == "window_destroy" then DestroyCommand(args)
    else if func == "quit" then ([QuitApp], Ok(None))
    else ([], Err(UnknownFunction))
  }

  /** The reply id: a string id verbatim, any other id (or a missing one,
      read as null) as its JSON text. */
  function CommandId(command: Json): (id: string)
    ensures Get(command, "id").Some? && Get(command, "id").value.JStr? ==> id == Get(command, "id").value.s
    ensures Get(command, "id").Some? && !Get(command, "id").value.JStr? ==> id == Dump(Get(command, "id").value)
    ensures Get(command, "id").None? ==> id == "null"
  {
    var idJson := if Get(command, "id").Some? then Get(command, "id").value else JNull;
    if idJson.JStr? then idJson.s else Dump(idJson)
  }

  /** Reading `func` and `args` (an empty object when missing), then the
      branch on `func`; a missing or non-string `func` fails. */
  function Perform(command: Json, env: Env): (seq<Effect>, Result<Option<Json>>)
  {
    match Get(command, "func")
    case None => ([], Err(KeyNotFound("func")))
    case Some(f) =>
      if !f.JStr? then ([], Err(TypeMustBe("string", f)))
      else
        var args := if Has(command, "args") then Get(command, "args").value else JObj([]);
        Dispatch(f.s, args, env)
  }

  /** `_peer_execute_command` on a line that parsed to `parsed` (`None`
      when it did not parse): no reply unless the line is a JSON object;
      otherwise the library calls made and the one reply, which carries the
      command's id and succeeds exactly when no step failed. */
  function ExecuteCommand(parsed: Option<Json>, env: Env): (r: Option<(seq<Effect>, Reply)>)
    ensures r.Some? <==> parsed.Some? && parsed.value.JObj?
    ensures r.Some? ==> r.value.1.id == CommandId(parsed.value)
    ensures r.Some? ==> (r.value.1.Succeeded? <==> Perform(parsed.value, env).1.Ok?)
    ensures r.Some? ==> r.value.0 == Perform(parsed.value, env).0
  {
    if parsed.None? || !parsed.value.JObj? then None
    else
      var command := parsed.value;
      var out := Perform(command, env);
      var id := CommandId(command);
      Some((out.0, if out.1.Ok? then Succeeded(id, out.1.value) else Failed(id, out.1.error)))
  }

  // ---------------------------------------------------------------------
  // The reply as an event
  // ---------------------------------------------------------------------

  /** The event a reply is emitted as: its name and data object (keys in
      the printer's sorted order); a success without a result has no
      "result" member. */
  function ReplyEvent(r: Reply): (e: (string, Json))
    ensures e.0 == "command_succeeded" <==> r.Succeeded?
    ensures e.0 == "command_failed" <==> r.Failed?
    ensures Get(e.1, "id") == Some(JStr(r.id))
    ensures r.Succeeded? ==> Get(e.1, "result") == r.result
    ensures r.Failed? ==> Get(e.1, "reason") == Some(JStr(r.reason))
  {
    match r
    case Succeeded(id, result) =>
      var members := [("id", JStr(id))] + (if result.Some? then [("result", result.value)] else []);
      assert result.Some? ==> members[1..][0] == ("result", result.value);
      assert result.None? ==> members[1..] == [];
      ("command_succeeded", JObj(members))
    case Failed(id, reason) =>
      var members := [("id", JStr(id)), ("reason", JStr(reason))];
      assert members[1..][0] == ("reason", JStr(reason));
      ("command_failed", JObj(members))
  }

  // ---------------------------------------------------------------------
  // Properties of command execution
  // ---------------------------------------------------------------------

  /** A command whose `func` is missing, or names no known function, is
      answered with `command_failed` and calls nothing. */
  lemma UnknownOrMissingFuncFails(command: Json, env: Env)
    requires command.JObj?
    requires Get(command, "func").None? ||
             (Get(command, "func").value.JStr? && Get(command, "func").value.s !in KnownFunctions)
    ensures ExecuteCommand(Some(command), env).Some?
    ensures ExecuteCommand(Some(command), env).value.0 == []
    ensures ExecuteCommand(Some(command), env).value.1 ==
      Failed(CommandId(command), if Get(command, "func").None? then KeyNotFound("func") else UnknownFunction)
  {
  }

  /** `screen_list`, `window_list` and `quit` always succeed, whatever
      their arguments, after exactly one library call. */
  lemma QueriesAndQuitSucceed(command: Json, env: Env)
    requires command.JObj?
    requires Get(command, "func") in {Some(JStr("screen_list")), Some(JStr("window_list")), Some(JStr("quit"))}
    ensures var r := ExecuteCommand(Some(command), env);
      r.Some? && r.value.1.Succeeded? && |r.value.0| == 1
  {
  }

  /** The handle commands succeed exactly when their arguments convert:
      an object with a numeric handle (and numeric coordinates, or a
      string message). */
  lemma HandleCommandsSucceed(args: Json)
    requires args.JObj? && Has(args, "handle") && Get(args, "handle").value.JNum?
    ensures DestroyCommand(args).1.Ok?
    ensures (&& Has(args, "x") && Get(args, "x").value.JNum? && Has(args, "y") && Get(args, "y").value.JNum?
             && Has(args, "width") && Get(args, "width").value.JNum?
             && Has(args, "height") && Get(args, "height").value.JNum?) ==>
      UpdatePositionCommand(args).1.Ok?
    ensures Has(args, "message") && Get(args, "message").value.JStr? ==> PostMessageCommand(args).1.Ok?
  {
  }

  /** Without `dir` and `url`, `window_create` fails before any library call. */
  lemma CreateNeedsLocation(args: Json, env: Env)
    requires !Has(args, "dir") && !Has(args, "url")
    ensures CreateWindowCommand(args, env) == ([], Err(NeedLocation))
  {
  }

  /** When both `dir` and `url` are strings, the window shows the URL. */
  lemma CreateUrlWins(args: Json, env: Env)
    requires Has(args, "dir") && Get(args, "dir").value.JStr?
    requires Has(args, "url") && Get(args, "url").value.JStr?
    ensures Location(args) == Ok((Url, Get(args, "url").value.s))
    ensures var r := CreateWindowCommand(args, env);
      |r.0| == 2 ==> r.0[1].CreateWindow? && r.0[1].details.webappType == Url &&
                     r.0[1].details.location == Get(args, "url").value.s
  {
  }

  /** A `size` (or `pos`) of numbers that is not exactly two long fails
      with its own message, after the screen query and before any window
      is created. */
  lemma CreateNeedsPairs(args: Json, env: Env)
    requires Location(args).Ok? && OptionalString(args, "title").Ok?
    requires Has(args, "size") && AsNumbers(Get(args, "size").value).Ok?
    requires |AsNumbers(Get(args, "size").value).value| != 2
    ensures CreateWindowCommand(args, env) == ([ScreenListQuery], Err(BadSize))
  {
  }

  lemma CreateNeedsPositionPair(args: Json, env: Env)
    requires Location(args).Ok? && OptionalString(args, "title").Ok?
    requires OptionalPair(args, "size", BadSize).Ok?
    requires Has(args, "pos") && AsNumbers(Get(args, "pos").value).Ok?
    requires |AsNumbers(Get(args, "pos").value).value| != 2
    ensures CreateWindowCommand(args, env) == ([ScreenListQuery], Err(BadPos))
  {
  }

  /** A window the library could not create (handle 0) is a failure; any
      other handle is the result. Either way the window was asked for once. */
  lemma CreateReportsHandle(args: Json, env: Env)
    requires |CreateWindowCommand(args, env).0| == 2
    ensures CreateWindowCommand(args, env).0[1].CreateWindow?
    ensures env.created == 0 ==> CreateWindowCommand(args, env).1 == Err(CreateFailed)
    ensures env.created != 0 ==> CreateWindowCommand(args, env).1 == Ok(Some(JNum(env.created)))
  {
  }

  /** A window is created only with a location and size and position of
      two numbers each. */
  lemma CreatedWindowsAreWellFormed(args: Json, env: Env)
    requires |CreateWindowCommand(args, env).0| == 2
    ensures var d := CreateWindowCommand(args, env).0[1].details;
      (Has(args, "dir") || Has(args, "url")) &&
      (d.size.Some? ==> |d.size.value| == 2) && (d.pos.Some? ==> |d.pos.value| == 2) &&
      (d.size.Some? <==> Has(args, "size")) && (d.pos.Some? <==> Has(args, "pos"))
  {
    var location := Location(args).value;
    var title := OptionalString(args, "title");
    assert title.Ok?;
    var details := Layout(args, location, title.value);
    assert details.Ok? && CreateWindowCommand(args, env).0[1].details == details.value;
    LayoutPairs(args, location, title.value);
  }

  lemma LayoutPairs(args: Json, location: (WebappType, string), title: Option<string>)
    requires Layout(args, location, title).Ok?
    ensures var d := Layout(args, location, title).value;
      (d.size.Some? ==> |d.size.value| == 2) && (d.pos.Some? ==> |d.pos.value| == 2) &&
      (d.size.Some? <==> Has(args, "size")) && (d.pos.Some? <==> Has(args, "pos"))
  {
    var size := OptionalPair(args, "size", BadSize);
    var pos := OptionalPair(args, "pos", BadPos);
    assert size.Ok? && pos.Ok?;
    assert Layout(args, location, title).value.size == size.value;
    assert Layout(args, location, title).value.pos == pos.value;
  }
}
