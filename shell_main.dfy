/** The command-line front end of the shell: it validates the options,
    fills the application details (one load order per platform, the icon
    set) and the window request, wires the window and process events to the
    control channel when one is given, and starts the library. Option
    parsing, the screen list, window geometry and the dialogs are outside:
    their answers are parameters, and what the program asks for is the log
    of steps it returns. The sizes of the load-order and icon arrays are
    parameters too. */
module ShellMain {
  import opened Wrappers
  import ShellLib
  import NucleusRegistry

  /** The parsed options; `None` for an option not given. The load orders
      hold the parser's default when not given. */
  datatype Options = Options(
    help: Option<bool>,
    dir: Option<string>,
    url: Option<string>,
    channel: Option<string>,
    title: Option<string>,
    win: seq<string>,
    mac: seq<string>,
    unix: seq<string>,
    icons: Option<seq<string>>,
    size: Option<seq<real>>,
    pos: Option<seq<real>>,
    decorated: Option<bool>,
    resizable: Option<bool>,
    top: Option<bool>,
    dev: Option<bool>)

  /** The defaults of `--win`, `--mac` and `--unix`. */
  const DefaultWin: seq<string> := ["edge", "ie11"]
  const DefaultMac: seq<string> := ["webkit"]
  const DefaultUnix: seq<string> := ["webkit"]

  /** The sizes of the fixed arrays of the application details. */
  datatype Capacities = Capacities(loadOrderEntries: nat, iconSetEntries: nat)

  datatype AppDetails = AppDetails(windows: seq<ShellLib.Tech>, macos: seq<ShellLib.Tech>, unix: seq<ShellLib.Tech>,
                                   icons: seq<Option<string>>)

  /** The window the program asks for. `size` and `origin` are the explicit
      values of `--size` and `--pos`; `None` stands for the value derived from
      the focused screen's workspace. */
  datatype WindowRequest = WindowRequest(
    webappType: NucleusRegistry.WebappType,
    location: string,
    loadingTitle: Option<string>,
    size: Option<(real, real)>,
    origin: Option<(real, real)>,
    notDecorated: bool,
    notResizable: bool,
    alwaysOnTop: bool,
    devMode: bool)

  datatype Step =
    | ShowHelp(error: Option<string>)
    | ShowMessage(text: string, isError: bool)
    | BrowseFolder
    | PrepareChannel(path: string)
    | InitLibrary(details: AppDetails, quitShutsChannel: bool)
    | ListScreens
    | CreateWindow(request: WindowRequest, forwardsToChannel: bool)
    | ActivateChannel
    | RunMain

  // ---------------------------------------------------------------------
  // Load orders
  // ---------------------------------------------------------------------

  /** The selector a load-order name stands for in a platform's list. */
  function TechOf(platform: ShellLib.Platform, name: string): Option<ShellLib.Tech>
  {
    match platform
    case Windows => if name == "edge" then Some(ShellLib.WindowsEdge)
                    else if name == "ie11" then Some(ShellLib.WindowsIe11) else None
    case MacOS => if name == "webkit" then Some(ShellLib.MacosWebkit) else None
    case Unix => if name == "webkit" then Some(ShellLib.UnixWebkit) else None
  }

  function PlatformName(platform: ShellLib.Platform): string
  {
    match platform
    case Windows => "Windows"
    case MacOS => "macOS"
    case Unix => "Unix"
  }

  function InvalidNucleus(platform: ShellLib.Platform, name: string): string
  {
    "Invalid nucleus \"" + name + "\" for " + PlatformName(platform) + "."
  }

  function Min(a: nat, b: nat): nat { if a < b then a else b }

  /** The position of the first name the platform does not know. */
  function FirstUnknown(platform: ShellLib.Platform, names: seq<string>): (r: Option<nat>)
    ensures r.Some? ==> r.value < |names| && TechOf(platform, names[r.value]).None?
    ensures r.Some? ==> forall k :: 0 <= k < r.value ==> TechOf(platform, names[k]).Some?
    ensures r.None? ==> forall k :: 0 <= k < |names| ==> TechOf(platform, names[k]).Some?
  {
    if |names| == 0 then None
    else if TechOf(platform, names[0]).None? then Some(0)
    else
      var r := FirstUnknown(platform, names[1..]);
      if r.Some? then Some(r.value + 1) else None
  }

  /** The load-order array for a list of names: only the first `cap` names
      are read; the first unknown one among them is an error, otherwise each
      fills its slot in order and the other slots stay empty. */
  function LoadOrder(platform: ShellLib.Platform, names: seq<string>, cap: nat): Result<seq<ShellLib.Tech>>
  {
    var n := Min(|names|, cap);
    var bad := FirstUnknown(platform, names[..n]);
    if bad.Some? then Err(InvalidNucleus(platform, names[..n][bad.value]))
    else Ok(seq(cap, i => if 0 <= i < n && TechOf(platform, names[i]).Some? then TechOf(platform, names[i]).value
                          else ShellLib.TechNone))
  }

  /** The counter loop that fills one platform's load-order array. */
  method FillLoadOrder(platform: ShellLib.Platform, names: seq<string>, cap: nat)
    returns (slots: array<ShellLib.Tech>, error: Option<string>)
    ensures slots.Length == cap
    ensures LoadOrder(platform, names, cap) == if error.Some? then Err(error.value) else Ok(slots[..])
  {
    slots := new ShellLib.Tech[cap](_ => ShellLib.TechNone);
    error := None;
    var i := 0;
    while i < |names|
      invariant 0 <= i <= |names| && i <= cap
      invariant forall k :: 0 <= k < i ==> TechOf(platform, names[k]).Some? && slots[k] == TechOf(platform, names[k]).value
      invariant forall k :: i <= k < cap ==> slots[k] == ShellLib.TechNone
    {
      if i >= cap {
        break;
      }
      var tech := TechOf(platform, names[i]);
      if tech.None? {
        error := Some(InvalidNucleus(platform, names[i]));
        FirstUnknownAt(platform, names[..Min(|names|, cap)], i);
        assert names[..Min(|names|, cap)][i] == names[i];
        return;
      }
      slots[i] := tech.value;
      i := i + 1;
    }
    assert FirstUnknown(platform, names[..Min(|names|, cap)]).None? by {
      var pre := names[..Min(|names|, cap)];
      assert forall k :: 0 <= k < |pre| ==> pre[k] == names[k];
    }
    assert slots[..] == LoadOrder(platform, names, cap).value;
  }

  lemma {:induction false} FirstUnknownAt(platform: ShellLib.Platform, names: seq<string>, i: nat)
    requires i < |names| && TechOf(platform, names[i]).None?
    requires forall k :: 0 <= k < i ==> TechOf(platform, names[k]).Some?
    ensures FirstUnknown(platform, names) == Some(i)
  {
    if i > 0 {
      FirstUnknownAt(platform, names[1..], i - 1);
    }
  }

  /** Names beyond the array's size are never looked at: a list with an
      unknown name after the first `cap` loads like its first `cap` names. */
  lemma LoadOrderIgnoresOverflow(platform: ShellLib.Platform, names: seq<string>, cap: nat)
    requires |names| > cap
    ensures LoadOrder(platform, names, cap) == LoadOrder(platform, names[..cap], cap)
  {
    assert names[..cap][..cap] == names[..cap];
    var a := LoadOrder(platform, names, cap);
    var b := LoadOrder(platform, names[..cap], cap);
    if a.Ok? {
      assert a.value == b.value;
    }
  }

  /** A load order is accepted exactly when each of its first `cap` names is
      known, and then every slot holds the selector of the name at its
      position. */
  lemma LoadOrderAccepted(platform: ShellLib.Platform, names: seq<string>, cap: nat)
    ensures LoadOrder(platform, names, cap).Ok? <==>
      forall k :: 0 <= k < Min(|names|, cap) ==> TechOf(platform, names[k]).Some?
    ensures LoadOrder(platform, names, cap).Ok? ==>
      forall k :: 0 <= k < Min(|names|, cap) ==> LoadOrder(platform, names, cap).value[k] == TechOf(platform, names[k]).value
  {
    var pre := names[..Min(|names|, cap)];
    assert forall k :: 0 <= k < |pre| ==> pre[k] == names[k];
  }

  /** The libraries a list of accepted names stands for, in order. */
  function LibrariesNamed(platform: ShellLib.Platform, names: seq<string>): seq<string>
  {
    if |names| == 0 then []
    else
      var last := TechOf(platform, names[|names| - 1]);
      var file := if last.Some? then ShellLib.LibraryName(platform, last.value) else None;
      LibrariesNamed(platform, names[..|names| - 1]) + (if file.Some? then [file.value] else [])
  }

  /** What the shell library tries is what the user listed: an accepted
      load order makes the library try the named nucleus libraries, in the
      order given, up to the array's size. */
  lemma LoadOrderNamesLibraries(platform: ShellLib.Platform, names: seq<string>, cap: nat)
    requires LoadOrder(platform, names, cap).Ok?
    ensures ShellLib.Candidates(platform, LoadOrder(platform, names, cap).value)
      == LibrariesNamed(platform, names[..Min(|names|, cap)])
    ensures |LibrariesNamed(platform, names[..Min(|names|, cap)])| == Min(|names|, cap)
  {
    var n := Min(|names|, cap);
    var slots := LoadOrder(platform, names, cap).value;
    LoadOrderAccepted(platform, names, cap);
    PrefixCandidates(platform, names[..n], slots[..n]);
    ShellLib.CandidatesInOrder(platform, slots[..n], slots[n..]);
    assert slots == slots[..n] + slots[n..];
    EmptySlots(platform, slots[n..]);
  }

  lemma {:induction false} PrefixCandidates(platform: ShellLib.Platform, names: seq<string>, slots: seq<ShellLib.Tech>)
    requires |slots| == |names|
    requires forall k :: 0 <= k < |names| ==> TechOf(platform, names[k]) == Some(slots[k])
    ensures ShellLib.Candidates(platform, slots) == LibrariesNamed(platform, names)
    ensures |LibrariesNamed(platform, names)| == |names|
  {
    if |names| > 0 {
      var m := |names| - 1;
      PrefixCandidates(platform, names[..m], slots[..m]);
      assert TechOf(platform, names[m]) == Some(slots[m]);
      assert ShellLib.LibraryName(platform, slots[m]).Some? by {
        match platform
        case Windows =>
        case MacOS =>
        case Unix =>
      }
    }
  }

  lemma {:induction false} EmptySlots(platform: ShellLib.Platform, slots: seq<ShellLib.Tech>)
    requires forall k :: 0 <= k < |slots| ==> slots[k] == ShellLib.TechNone
    ensures ShellLib.Candidates(platform, slots) == []
  {
    if |slots| > 0 {
      EmptySlots(platform, slots[..|slots| - 1]);
    }
  }

  /** The default Windows order tries Edge, then IE11. */
  lemma DefaultWindowsOrder(cap: nat)
    requires cap >= 2
    ensures LoadOrder(ShellLib.Windows, DefaultWin, cap).Ok?
    ensures ShellLib.Candidates(ShellLib.Windows, LoadOrder(ShellLib.Windows, DefaultWin, cap).value)
      == ["audience_windows_edge.dll", "audience_windows_ie11.dll"]
  {
    LoadOrderAccepted(ShellLib.Windows, DefaultWin, cap);
    LoadOrderNamesLibraries(ShellLib.Windows, DefaultWin, cap);
    assert DefaultWin[..Min(|DefaultWin|, cap)] == DefaultWin;
    assert DefaultWin[..1] == ["edge"];
  }

  // ---------------------------------------------------------------------
  // Icons
  // ---------------------------------------------------------------------

  /** The icon array: the first `cap` icons given, in order; other slots
      empty. */
  function IconSlots(icons: seq<string>, cap: nat): (slots: seq<Option<string>>)
    ensures |slots| == cap
  {
    seq(cap, i => if 0 <= i < |icons| then Some(icons[i]) else None)
  }

  method FillIcons(icons: Option<seq<string>>, cap: nat) returns (slots: array<Option<string>>)
    ensures slots[..] == IconSlots(if icons.Some? then icons.value else [], cap)
  {
    slots := new Option<string>[cap](_ => None);
    if icons.Some? {
      var i := 0;
      while i < |icons.value|
        invariant 0 <= i <= |icons.value| && i <= cap
        invariant forall k :: 0 <= k < i ==> slots[k] == Some(icons.value[k])
        invariant forall k :: i <= k < cap ==> slots[k] == None
      {
        if i >= cap {
          break;
        }
        slots[i] := Some(icons.value[i]);
        i := i + 1;
      }
    }
  }

  /** The nucleus receives exactly the first `cap` icons, in the order
      given: the icon array and the nucleus's selection of present slots
      fit together. */
  lemma {:induction false} IconsReachNucleus(icons: seq<string>, cap: nat)
    ensures NucleusRegistry.Present(IconSlots(icons, cap)) == icons[..Min(|icons|, cap)]
  {
    if cap > 0 {
      IconsReachNucleus(icons, cap - 1);
      var s := IconSlots(icons, cap);
      assert s[..cap - 1] == IconSlots(icons, cap - 1);
      if cap - 1 < |icons| {
        assert icons[..cap] == icons[..cap - 1] + [icons[cap - 1]];
      }
    }
  }

  // ---------------------------------------------------------------------
  // Event wiring
  // ---------------------------------------------------------------------

  /** What the window and process handlers do beyond logging. */
  datatype Reaction = Reaction(preventClose: bool, emits: seq<Emit>)
  datatype Emit = EmitWindowMessage(handle: NucleusRegistry.Handle, message: string)
                | EmitCloseIntent(handle: NucleusRegistry.Handle)
                | ShutdownChannel

  /** A window message is forwarded to the controller, unchanged and under
      its window, exactly when there is a channel. */
  function OnMessage(withChannel: bool, handle: NucleusRegistry.Handle, message: string): (r: Reaction)
    ensures !r.preventClose
    ensures r.emits != [] <==> withChannel
    ensures forall e | e in r.emits :: e == EmitWindowMessage(handle, message)
  {
    Reaction(false, if withChannel then [EmitWindowMessage(handle, message)] else [])
  }

  /** With a channel the close is prevented and announced under the
      window; without one the window closes and nothing is sent. */
  function OnWillClose(withChannel: bool, handle: NucleusRegistry.Handle): (r: Reaction)
    ensures r.preventClose <==> withChannel
    ensures r.emits != [] <==> withChannel
    ensures forall e | e in r.emits :: e == EmitCloseIntent(handle)
  {
    if withChannel then Reaction(true, [EmitCloseIntent(handle)]) else Reaction(false, [])
  }

  /** On quit the channel, when there is one, is shut down. */
  function OnQuit(withChannel: bool): (r: Reaction)
    ensures !r.preventClose
    ensures r.emits != [] <==> withChannel
    ensures forall e | e in r.emits :: e == ShutdownChannel
  {
    Reaction(false, if withChannel then [ShutdownChannel] else [])
  }

  /** With a channel the user closing a window never closes it: the close
      is prevented and announced to the controller, which decides; without
      one, nothing is prevented and nothing is sent anywhere. */
  lemma ChannelDecidesClosing(withChannel: bool, handle: NucleusRegistry.Handle, message: string)
    ensures OnWillClose(withChannel, handle).preventClose <==> withChannel
    ensures withChannel ==> OnWillClose(withChannel, handle).emits == [EmitCloseIntent(handle)]
    ensures !withChannel ==>
      && OnWillClose(withChannel, handle).emits == []
      && OnMessage(withChannel, handle, message).emits == []
      && OnQuit(withChannel).emits == []
    ensures !OnMessage(withChannel, handle, message).preventClose && !OnQuit(withChannel).preventClose
  {
  }

  // ---------------------------------------------------------------------
  // The program
  // ---------------------------------------------------------------------

  const BothMessage := "Use either --dir or --url, not both at the same time."
  const NothingMessage := "Use either --dir or --url and/or --channel, otherwise there is nothing we can do for you."
  const SizeMessage := "Size needs to be formatted as width,height"
  const PosMessage := "Position needs to be formatted as x,y"
  const InitFailedMessage := "Could not initialize Audience framework."
  const CreateFailedMessage := "Could not create Audience window."

  /** The window request the options describe, once validated. */
  function RequestFor(o: Options, location: (NucleusRegistry.WebappType, string)): WindowRequest
  {
    WindowRequest(location.0, location.1, o.title,
      if o.size.Some? && |o.size.value| == 2 then Some((o.size.value[0], o.size.value[1])) else None,
      if o.pos.Some? && |o.pos.value| == 2 then Some((o.pos.value[0], o.pos.value[1])) else None,
      o.decorated.Some? && !o.decorated.value,
      o.resizable.Some? && !o.resizable.value,
      o.top.Some? && o.top.value,
      o.dev.Some? && o.dev.value)
  }

  /** The application details the options describe, when every load
      order is accepted. */
  function DetailsFor(o: Options, caps: Capacities): Result<AppDetails>
  {
    var win := LoadOrder(ShellLib.Windows, o.win, caps.loadOrderEntries);
    var mac := LoadOrder(ShellLib.MacOS, o.mac, caps.loadOrderEntries);
    var unix := LoadOrder(ShellLib.Unix, o.unix, caps.loadOrderEntries);
    if win.Err? then Err(win.error)
    else if mac.Err? then Err(mac.error)
    else if unix.Err? then Err(unix.error)
    else Ok(AppDetails(win.value, mac.value, unix.value,
                       IconSlots(if o.icons.Some? then o.icons.value else [], caps.iconSetEntries)))
  }

  /** Filling the application details: the Windows, macOS and Unix load
      orders in turn (the first rejected name stops the program), then the
      icon set. */
  method FillDetails(o: Options, caps: Capacities) returns (r: Result<AppDetails>)
    ensures r == DetailsFor(o, caps)
  {
    var windows, error := FillLoadOrder(ShellLib.Windows, o.win, caps.loadOrderEntries);
    if error.Some? {
      return Err(error.value);
    }
    var macos, macError := FillLoadOrder(ShellLib.MacOS, o.mac, caps.loadOrderEntries);
    if macError.Some? {
      return Err(macError.value);
    }
    var unix, unixError := FillLoadOrder(ShellLib.Unix, o.unix, caps.loadOrderEntries);
    if unixError.Some? {
      return Err(unixError.value);
    }
    var icons := FillIcons(o.icons, caps.iconSetEntries);
    return Ok(AppDetails(windows[..], macos[..], unix[..], icons[..]));
  }

  /** `main`: the steps taken and the exit code. `parsed` is the option
      parser's answer, `folder` the folder dialog's (Windows only),
      `initialized` and `created` the library's. The option checks come
      first; nothing is prepared before they pass. */
  method RunApp(platform: ShellLib.Platform, caps: Capacities, parsed: Result<Options>, folder: Option<string>,
              initialized: bool, created: NucleusRegistry.Handle)
    returns (exit: int, steps: seq<Step>)
    ensures exit in {0, 1, 2}
    ensures parsed.Err? ==> exit == 1 && steps == [ShowHelp(Some(parsed.error + "."))]
    ensures parsed.Ok? && parsed.value.help == Some(true) ==> exit == 1 && steps == [ShowHelp(None)]
    ensures parsed.Ok? && parsed.value.help != Some(true) && parsed.value.dir.Some? && parsed.value.url.Some? ==>
      exit == 1 && steps == [ShowHelp(Some(BothMessage))]
    ensures (&& parsed.Ok? && parsed.value.help != Some(true) && platform != ShellLib.Windows
             && parsed.value.dir.None? && parsed.value.url.None? && parsed.value.channel.None?) ==>
      exit == 1 && steps == [ShowHelp(Some(NothingMessage))]
    ensures exit == 0 ==>
      && parsed.Ok? && parsed.value.help != Some(true) && !(parsed.value.dir.Some? && parsed.value.url.Some?)
      && DetailsFor(parsed.value, caps).Ok? && initialized
      && |steps| > 0 && steps[|steps| - 1] == RunMain
  {
    if parsed.Err? {
      return 1, [ShowHelp(Some(parsed.error + "."))];
    }
    var o := parsed.value;
    if o.help.Some? && o.help.value {
      return 1, [ShowHelp(None)];
    }
    if o.dir.Some? && o.url.Some? {
      return 1, [ShowHelp(Some(BothMessage))];
    }
    var selected := "";
    var browsed: seq<Step> := [];
    if o.dir.None? && o.url.None? && o.channel.None? {
      if platform == ShellLib.Windows {
        browsed := [BrowseFolder];
        if folder.None? {
          return 1, browsed;
        }
        selected := folder.value;
      } else {
        return 1, [ShowHelp(Some(NothingMessage))];
      }
    }
    var launched;
    exit, launched := Launch(caps, o, selected, initialized, created);
    steps := browsed + launched;
  }

  /** What a window-creation step asks for, as the options say: the
      location (the URL over the directory over the folder selected), the
      size and the position when given as pairs. */
  predicate RequestMatches(r: WindowRequest, o: Options, selected: string)
  {
    && (o.size.Some? ==> |o.size.value| == 2 && r.size == Some((o.size.value[0], o.size.value[1])))
    && (o.pos.Some? ==> |o.pos.value| == 2 && r.origin == Some((o.pos.value[0], o.pos.value[1])))
    && (o.size.None? ==> r.size.None?)
    && (o.pos.None? ==> r.origin.None?)
    && r.location == (if o.url.Some? then o.url.value else if o.dir.Some? then o.dir.value else selected)
    && r.webappType == (if o.url.Some? then NucleusRegistry.Url else NucleusRegistry.Directory)
  }

  /** `--size` and `--pos`, when given, are pairs. */
  predicate PairsOk(o: Options)
  {
    (o.size.None? || |o.size.value| == 2) && (o.pos.None? || |o.pos.value| == 2)
  }

  /** There is a location to create a window for: a folder selected, a
      directory or a URL. */
  predicate HasLocation(o: Options, selected: string)
  {
    |selected| > 0 || o.dir.Some? || o.url.Some?
  }

  /** The part of `main` after the option checks: prepare the channel, fill
      the details and start the library, then describe and show the window. */
  method Launch(caps: Capacities, o: Options, selected: string, initialized: bool, created: NucleusRegistry.Handle)
    returns (exit: int, steps: seq<Step>)
    requires !(o.dir.Some? && o.url.Some?)
    ensures exit in {0, 1, 2}
    ensures DetailsFor(o, caps).Err? ==>
      && exit == 1
      && steps == (if o.channel.Some? then [PrepareChannel(o.channel.value)] else []) + [ShowHelp(Some(DetailsFor(o, caps).error))]
    ensures forall step | step in steps && step.InitLibrary? ::
      DetailsFor(o, caps).Ok? && step == InitLibrary(DetailsFor(o, caps).value, o.channel.Some?)
    ensures forall step | step in steps && step.CreateWindow? ::
      step.forwardsToChannel == o.channel.Some? && RequestMatches(step.request, o, selected)
    ensures o.size.Some? && |o.size.value| != 2 ==> exit != 0
    ensures o.pos.Some? && |o.pos.value| != 2 ==> exit != 0
    ensures exit == 0 <==> |steps| > 0 && steps[|steps| - 1] == RunMain
    ensures exit == 0 ==> DetailsFor(o, caps).Ok? && initialized
    ensures DetailsFor(o, caps).Ok? && !initialized ==>
      && exit == 2
      && steps == (if o.channel.Some? then [PrepareChannel(o.channel.value)] else [])
                  + [InitLibrary(DetailsFor(o, caps).value, o.channel.Some?), ShowMessage(InitFailedMessage, true)]
    ensures DetailsFor(o, caps).Ok? && initialized && PairsOk(o) && HasLocation(o, selected) && created == 0 ==>
      exit == 2 && |steps| > 0 && steps[|steps| - 1] == ShowMessage(CreateFailedMessage, true)
    ensures DetailsFor(o, caps).Ok? && initialized && PairsOk(o) && (created != 0 || !HasLocation(o, selected)) ==>
      exit == 0
    ensures exit == 0 && o.channel.Some? ==>
      && |steps| >= 3 && steps[0] == PrepareChannel(o.channel.value)
      && steps[|steps| - 2] == ActivateChannel
      && ActivateChannel !in steps[..|steps| - 2]
  {
    var withChannel := o.channel.Some?;
    var prepared := if withChannel then [PrepareChannel(o.channel.value)] else [];

    var details := FillDetails(o, caps);
    if details.Err? {
      return 1, prepared + [ShowHelp(Some(details.error))];
    }
    var started := prepared + [InitLibrary(details.value, withChannel)];
    if !initialized {
      return 2, started + [ShowMessage(InitFailedMessage, true)];
    }
    var shown;
    exit, shown := ShowWindow(o, selected, created, withChannel);
    steps := started + shown;
    if exit == 0 && withChannel {
      assert steps[..|steps| - 2] == started + shown[..|shown| - 2];
    }
  }

  /** The window part of `main`: the location (the folder selected, then
      `--dir`, then `--url`), the screens listed, `--size` and `--pos`
      checked, the window created when there is a location, and only then
      the channel activated and the library run. */
  method ShowWindow(o: Options, selected: string, created: NucleusRegistry.Handle, withChannel: bool)
    returns (exit: int, steps: seq<Step>)
    requires !(o.dir.Some? && o.url.Some?)
    ensures exit in {0, 1, 2} && |steps| > 0 && steps[0] == ListScreens
    ensures forall step | step in steps :: !step.InitLibrary? && !step.PrepareChannel?
    ensures forall step | step in steps && step.CreateWindow? ::
      step.forwardsToChannel == withChannel && RequestMatches(step.request, o, selected)
    ensures o.size.Some? && |o.size.value| != 2 ==> exit == 1
    ensures o.pos.Some? && |o.pos.value| != 2 ==> exit == 1
    ensures exit == 0 <==> steps[|steps| - 1] == RunMain
    ensures PairsOk(o) && HasLocation(o, selected) && created == 0 ==>
      exit == 2 && steps[|steps| - 1] == ShowMessage(CreateFailedMessage, true)
    ensures PairsOk(o) && (created != 0 || !HasLocation(o, selected)) ==> exit == 0
    ensures exit == 0 && withChannel ==>
      && |steps| >= 3 && steps[|steps| - 2] == ActivateChannel
      && ActivateChannel !in steps[..|steps| - 2]
  {
    var doCreate := false;
    var location: (NucleusRegistry.WebappType, string) := (NucleusRegistry.Directory, "");
    if |selected| > 0 {
      doCreate := true;
      location := (NucleusRegistry.Directory, selected);
    }
    if o.dir.Some? {
      doCreate := true;
      location := (NucleusRegistry.Directory, o.dir.value);
    }
    if o.url.Some? {
      doCreate := true;
      location := (NucleusRegistry.Url, o.url.value);
    }

    steps := [ListScreens];
    if o.size.Some? && |o.size.value| != 2 {
      return 1, steps + [ShowHelp(Some(SizeMessage))];
    }
    if o.pos.Some? && |o.pos.value| != 2 {
      return 1, steps + [ShowHelp(Some(PosMessage))];
    }

    if doCreate {
      steps := steps + [CreateWindow(RequestFor(o, location), withChannel)];
      if created == 0 {
        return 2, steps + [ShowMessage(CreateFailedMessage, true)];
      }
    }
    if withChannel {
      steps := steps + [ActivateChannel];
    }
    steps := steps + [RunMain];
    exit := 0;
  }

  // ---------------------------------------------------------------------
  // Message boxes on Unix
  // ---------------------------------------------------------------------

  /** `isprint` in the C locale. */
  predicate Printable(c: char)
  {
    ' ' <= c <= '~'
  }

  /** The text `display_message` hands to the message box on Unix: only
      printable characters and line feeds, in order. */
  function Shown(message: string): (r: string)
    ensures |r| <= |message|
    ensures forall i :: 0 <= i < |r| ==> Printable(r[i]) || r[i] == '\n'
  {
    if |message| == 0 then ""
    else
      var c := message[|message| - 1];
      Shown(message[..|message| - 1]) + (if Printable(c) || c == '\n' then [c] else [])
  }

  /** A message of printable lines reaches the box unchanged, so filtering
      twice is filtering once. */
  lemma {:induction false} ShownKeepsPrintable(message: string)
    requires forall i :: 0 <= i < |message| ==> Printable(message[i]) || message[i] == '\n'
    ensures Shown(message) == message
  {
    if |message| > 0 {
      ShownKeepsPrintable(message[..|message| - 1]);
    }
  }

  lemma ShownIdempotent(message: string)
    ensures Shown(Shown(message)) == Shown(message)
  {
    ShownKeepsPrintable(Shown(message));
  }

  /** Only the dropped characters are lost: filtering a concatenation is
      filtering each part. */
  lemma {:induction false} ShownAppend(a: string, b: string)
    ensures Shown(a + b) == Shown(a) + Shown(b)
    decreases |b|
  {
    if |b| == 0 {
      assert a + b == a;
    } else {
      ShownAppend(a, b[..|b| - 1]);
      assert (a + b)[..|a + b| - 1] == a + b[..|b| - 1];
    }
  }
}
