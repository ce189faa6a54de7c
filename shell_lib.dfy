/** The shell library between an application and a nucleus: it picks the
    first nucleus library of the platform's load order that loads, exports
    all seven entry points and initialises; it routes window creation by
    web-app type and by what the nucleus negotiated (serving a directory
    through a local webserver when the nucleus only opens URLs); it routes
    posted messages to the nucleus or to the window's webserver; and it
    forwards the nucleus's events to the application's handlers. Loading,
    symbol lookup, the nucleus calls and the webserver are outside; what
    they answer comes in as parameters, and what is asked of them is the
    log `calls`. */
module ShellLib {
  import opened Wrappers
  import Json
  import NucleusRegistry

  type Handle = NucleusRegistry.Handle

  datatype Platform = Windows | MacOS | Unix

  /** A load-order slot. */
  datatype Tech = TechNone | WindowsEdge | WindowsIe11 | MacosWebkit | UnixWebkit | Unknown(code: int)

  /** The seven entry points a nucleus library must export. */
  datatype Symbol = Init | WindowCreate | WindowPostMessage | WindowDestroy | Main | DispatchSync | DispatchAsync

  const AllSymbols: set<Symbol> := {Init, WindowCreate, WindowPostMessage, WindowDestroy, Main, DispatchSync, DispatchAsync}

  /** What the nucleus declares at init; every flag is false when reset. */
  datatype Negotiation = Negotiation(handlesDirectory: bool, handlesUrl: bool, handlesMessaging: bool)

  const NoNegotiation := Negotiation(false, false, false)

  /** How a library answers: whether it loads, what it exports, whether its
      init succeeds and what it negotiates. */
  datatype Library = Library(loads: bool, exports: set<Symbol>, initSucceeds: bool, negotiation: Negotiation)

  /** Application callbacks, by identity; `None` is a null handler. */
  datatype WindowEventHandler = WindowEventHandler(onMessage: Option<nat>, onWillClose: Option<nat>, onClose: Option<nat>)
  datatype ProcessEventHandler = ProcessEventHandler(onWillQuit: Option<nat>, onQuit: Option<nat>)

  const NoProcessHandler := ProcessEventHandler(None, None)

  datatype Call =
    | LoadLibrary(name: string)
    | NucleusCreate(details: NucleusRegistry.WindowDetails)
    | NucleusPostMessage(handle: Handle, message: string)
    | NucleusDestroy(handle: Handle)
    | NucleusMain
    | WebserverStart(directory: string)
    | WebserverStop(server: nat)
    | WebserverPostMessage(server: nat, message: string)
    | MessageCallback(callback: nat, handle: Handle, message: string)
    | WillCloseCallback(callback: nat, handle: Handle)
    | CloseCallback(callback: nat, handle: Handle)
    | WillQuitCallback(callback: nat)
    | QuitCallback(callback: nat)

  /** The library a load-order slot names on a platform; `None` for the
      empty slot and for a selector the platform does not know. */
  function LibraryName(platform: Platform, tech: Tech): Option<string>
  {
    match (platform, tech)
    case (Windows, WindowsEdge) => Some("audience_windows_edge.dll")
    case (Windows, WindowsIe11) => Some("audience_windows_ie11.dll")
    case (MacOS, MacosWebkit) => Some("libaudience_macos_webkit.dylib")
    case (Unix, UnixWebkit) => Some("libaudience_unix_webkit.so")
    case _ => None
  }

  /** The libraries a load order names, in slot order. */
  function Candidates(platform: Platform, order: seq<Tech>): (names: seq<string>)
    ensures |names| <= |order|
  {
    if |order| == 0 then []
    else
      var last := LibraryName(platform, order[|order| - 1]);
      Candidates(platform, order[..|order| - 1]) + (if last.Some? then [last.value] else [])
  }

  /** Candidates keep slot order: the candidates of two stretches of slots
      are those of the first followed by those of the second, and empty or
      unknown slots contribute nothing. */
  lemma {:induction false} CandidatesInOrder(platform: Platform, a: seq<Tech>, b: seq<Tech>)
    ensures Candidates(platform, a + b) == Candidates(platform, a) + Candidates(platform, b)
    decreases |b|
  {
    if |b| == 0 {
      assert a + b == a;
    } else {
      var b' := b[..|b| - 1];
      CandidatesInOrder(platform, a, b');
      assert (a + b)[..|a + b| - 1] == a + b';
    }
  }

  /** A slot that names no library of the platform adds no candidate. */
  lemma SkippedSlot(platform: Platform, order: seq<Tech>, tech: Tech)
    requires LibraryName(platform, tech).None?
    ensures Candidates(platform, order + [tech]) == Candidates(platform, order)
  {
    assert (order + [tech])[..|order|] == order;
  }

  /** A library is kept when it loads, exports every entry point and its
      init succeeds. */
  predicate Usable(lib: Library)
  {
    lib.loads && lib.exports == AllSymbols && lib.initSucceeds
  }

  /** The position of the first usable candidate, if any. */
  function FirstUsable(names: seq<string>, libraries: string -> Library): (r: Option<nat>)
    ensures r.Some? ==> r.value < |names| && Usable(libraries(names[r.value]))
    ensures r.Some? ==> forall k :: 0 <= k < r.value ==> !Usable(libraries(names[k]))
    ensures r.None? ==> forall k :: 0 <= k < |names| ==> !Usable(libraries(names[k]))
  {
    if |names| == 0 then None
    else if Usable(libraries(names[0])) then Some(0)
    else
      var r := FirstUsable(names[1..], libraries);
      if r.Some? then Some(r.value + 1) else None
  }

  /** The libraries tried: every candidate up to and including the first
      usable one, or all of them. */
  function Tried(names: seq<string>, libraries: string -> Library): (tried: seq<string>)
    ensures |tried| <= |names|
  {
    var first := FirstUsable(names, libraries);
    if first.Some? then names[..first.value + 1] else names
  }

  function LoadCalls(names: seq<string>): (cs: seq<Call>)
    ensures |cs| == |names| && forall k :: 0 <= k < |names| ==> cs[k] == LoadLibrary(names[k])
  {
    if |names| == 0 then [] else LoadCalls(names[..|names| - 1]) + [LoadLibrary(names[|names| - 1])]
  }

  /** The address a directory is served from, for the port the server took. */
  function ServedUrl(port: nat): string
  {
    "http://127.0.0.1:" + Json.NatToString(port) + "/"
  }

  /** The library list `_audience_init` builds from the load order. */
  method LoadOrderLibraries(platform: Platform, order: seq<Tech>) returns (names: seq<string>)
    ensures names == Candidates(platform, order)
  {
    names := [];
    var i := 0;
    while i < |order|
      invariant 0 <= i <= |order|
      invariant names == Candidates(platform, order[..i])
    {
      assert order[..i + 1][..i] == order[..i];
      var name := LibraryName(platform, order[i]);
      if name.Some? {
        names := names + [name.value];
      }
      i := i + 1;
    }
    assert order[..|order|] == order;
  }

  /** Entry points are resolved all together or not at all, and without
      them the negotiation is the reset one. */
  ghost predicate ResolvedOk(symbols: set<Symbol>, negotiation: Negotiation)
  {
    && (symbols == {} || symbols == AllSymbols)
    && (symbols == {} ==> negotiation == NoNegotiation)
  }

  /** The webserver registry is one-to-one, and a window with a webserver
      has handlers under a non-zero handle. */
  ghost predicate RegistryOk(webservers: map<Handle, nat>, windowHandlers: map<Handle, WindowEventHandler>)
  {
    && (forall h, h' | h in webservers && h' in webservers && h != h' :: webservers[h] != webservers[h'])
    && (forall h | h in webservers :: h in windowHandlers)
    && 0 !in windowHandlers
  }

  class Shell {
    /** The entry points currently resolved (non-null). */
    var symbols: set<Symbol>
    var negotiation: Negotiation
    var processHandler: ProcessEventHandler
    /** `nucleus_webserver_registry`: window handle to webserver. */
    var webservers: map<Handle, nat>
    /** `user_window_event_handler`. */
    var windowHandlers: map<Handle, WindowEventHandler>
    var calls: seq<Call>

    /** `audience_is_initialized`: every entry point is resolved. */
    predicate IsInitialized()
      reads this
    {
      symbols == AllSymbols
    }

    /** Entry points are resolved all together or not at all, a shell
        without a nucleus holds the reset negotiation, the webserver
        registry is one-to-one, and a window with a webserver has handlers
        under a non-zero handle. */
    ghost predicate Valid()
      reads this
    {
      ResolvedOk(symbols, negotiation) && RegistryOk(webservers, windowHandlers)
    }

    constructor ()
      ensures Valid() && !IsInitialized()
      ensures symbols == {} && negotiation == NoNegotiation && processHandler == NoProcessHandler
      ensures webservers == map[] && windowHandlers == map[] && calls == []
    {
      symbols := {};
      negotiation := NoNegotiation;
      processHandler := NoProcessHandler;
      webservers := map[];
      windowHandlers := map[];
      calls := [];
    }

    /** `_audience_init`: nothing happens when already initialised.
        Otherwise the load order's libraries are tried in slot order until
        one is usable; that one's entry points and negotiation are kept and
        the application's handler is copied. When none is usable the shell
        stays uninitialised and reports false. */
    method InitShell(platform: Platform, order: seq<Tech>, handler: ProcessEventHandler,
                     libraries: string -> Library) returns (ok: bool)
      requires Valid()
      modifies this
      ensures Valid()
      ensures old(IsInitialized()) ==>
        && ok && symbols == old(symbols) && negotiation == old(negotiation)
        && processHandler == old(processHandler) && calls == old(calls)
      ensures !old(IsInitialized()) ==>
        var names := Candidates(platform, order);
        var first := FirstUsable(names, libraries);
        && (ok <==> first.Some?)
        && calls == old(calls) + LoadCalls(Tried(names, libraries))
        && (first.Some? ==>
              IsInitialized() && negotiation == libraries(names[first.value]).negotiation && processHandler == handler)
        && (first.None? ==> symbols == {} && negotiation == NoNegotiation && processHandler == old(processHandler))
      ensures webservers == old(webservers) && windowHandlers == old(windowHandlers)
    {
      if IsInitialized() {
        return true;
      }

      var names := LoadOrderLibraries(platform, order);
      ok := TryLibraries(names, handler, libraries);
    }

    /** The loading loop of `_audience_init`: each candidate is loaded in
        turn; one that loads has its entry points resolved and, when all
        seven are there, is initialised; the first that initialises is
        kept, and any other is reset before the next is tried. */
    method TryLibraries(names: seq<string>, handler: ProcessEventHandler, libraries: string -> Library)
      returns (ok: bool)
      requires Valid() && symbols == {}
      modifies this
      ensures Valid()
      ensures var first := FirstUsable(names, libraries);
        && (ok <==> first.Some?)
        && calls == old(calls) + LoadCalls(Tried(names, libraries))
        && (first.Some? ==>
              IsInitialized() && negotiation == libraries(names[first.value]).negotiation && processHandler == handler)
        && (first.None? ==> symbols == {} && negotiation == NoNegotiation && processHandler == old(processHandler))
      ensures webservers == old(webservers) && windowHandlers == old(windowHandlers)
    {
      var j := 0;
      while j < |names|
        invariant 0 <= j <= |names|
        invariant forall k :: 0 <= k < j ==> !Usable(libraries(names[k]))
        invariant calls == old(calls) + LoadCalls(names[..j])
        invariant symbols == {} && negotiation == NoNegotiation && processHandler == old(processHandler)
        invariant webservers == old(webservers) && windowHandlers == old(windowHandlers)
      {
        LoadCallsStep(names, j);
        var kept := TryLibrary(names[j], handler, libraries);
        if kept {
          FirstUsableAt(names, libraries, j);
          return true;
        }
        j := j + 1;
      }
      NoneUsable(names, libraries);
      return false;
    }

    /** One turn of that loop: the library is loaded; when it loads, its
        entry points are resolved, and when all seven are there its init is
        called. It is kept exactly when it is usable; otherwise the entry
        points and the negotiation are reset. */
    method TryLibrary(name: string, handler: ProcessEventHandler, libraries: string -> Library)
      returns (kept: bool)
      requires Valid() && symbols == {}
      modifies this
      ensures Valid() && calls == old(calls) + [LoadLibrary(name)]
      ensures kept <==> Usable(libraries(name))
      ensures kept ==> IsInitialized() && negotiation == libraries(name).negotiation && processHandler == handler
      ensures !kept ==> symbols == {} && negotiation == NoNegotiation && processHandler == old(processHandler)
      ensures webservers == old(webservers) && windowHandlers == old(windowHandlers)
    {
      var lib := libraries(name);
      calls := calls + [LoadLibrary(name)];
      if lib.loads {
        symbols := lib.exports;
        negotiation := NoNegotiation;
        if IsInitialized() {
          negotiation := lib.negotiation;
          if lib.initSucceeds {
            processHandler := handler;
            return true;
          }
        }
        symbols := {};
        negotiation := NoNegotiation;
      }
      return false;
    }

    /** `_audience_window_create`. Without a nucleus, and for a web-app type
        the nucleus cannot open even through a webserver, the zero handle
        comes back and nothing changes. A type the nucleus opens is passed
        to it directly. A directory for a nucleus that only opens URLs is
        served by a new local webserver and opened by its URL; the server
        is stopped when the window cannot be created and registered under
        the window otherwise. The window's handlers are kept under every
        non-zero handle. */
    method CreateWindow(details: NucleusRegistry.WindowDetails, handler: WindowEventHandler,
                        created: Handle, server: nat, port: nat) returns (handle: Handle)
      requires Valid()
      modifies this
      ensures Valid()
      ensures var route := Route(old(IsInitialized()), negotiation, details.webappType);
        && (route == Refused ==> handle == 0 && calls == old(calls) && webservers == old(webservers))
        && (route == Direct ==> handle == created && calls == old(calls) + [NucleusCreate(details)]
                                && webservers == old(webservers))
        && (route == ViaWebserver ==>
              && handle == created
              && calls == old(calls) + [WebserverStart(details.location),
                   NucleusCreate(NucleusRegistry.WindowDetails(NucleusRegistry.Url, ServedUrl(port), details.loadingTitle))]
                 + (if created == 0 then [WebserverStop(server)] else [])
              && webservers == (if created == 0 || created in old(webservers) || server in old(webservers).Values
                                then old(webservers) else old(webservers)[created := server]))
      ensures windowHandlers == if handle == 0 then old(windowHandlers) else old(windowHandlers)[handle := handler]
      ensures symbols == old(symbols) && negotiation == old(negotiation) && processHandler == old(processHandler)
    {
      if !IsInitialized() {
        return 0;
      }
      if details.webappType == NucleusRegistry.Url && negotiation.handlesUrl {
        calls := calls + [NucleusCreate(details)];
        handle := created;
      } else if details.webappType == NucleusRegistry.Directory && negotiation.handlesDirectory {
        calls := calls + [NucleusCreate(details)];
        handle := created;
      } else if details.webappType == NucleusRegistry.Directory && negotiation.handlesUrl {
        calls := calls + [WebserverStart(details.location)];
        var served := NucleusRegistry.WindowDetails(NucleusRegistry.Url, ServedUrl(port), details.loadingTitle);
        calls := calls + [NucleusCreate(served)];
        handle := created;
        if handle == 0 {
          calls := calls + [WebserverStop(server)];
        } else if handle !in webservers && server !in webservers.Values {
          webservers := webservers[handle := server];
        }
      } else {
        return 0;
      }
      if handle != 0 {
        windowHandlers := windowHandlers[handle := handler];
      }
    }

    /** `_audience_window_post_message`: to the nucleus when it handles
        messaging, otherwise to the window's webserver; a window without one
        drops the message. */
    method PostMessage(handle: Handle, message: string)
      modifies this
      ensures calls == old(calls) +
        (if !IsInitialized() then []
         else if negotiation.handlesMessaging then [NucleusPostMessage(handle, message)]
         else if handle in webservers then [WebserverPostMessage(webservers[handle], message)]
         else [])
      ensures symbols == old(symbols) && negotiation == old(negotiation) && processHandler == old(processHandler)
      ensures webservers == old(webservers) && windowHandlers == old(windowHandlers)
    {
      if !IsInitialized() {
        return;
      }
      if negotiation.handlesMessaging {
        calls := calls + [NucleusPostMessage(handle, message)];
        return;
      }
      if handle in webservers {
        calls := calls + [WebserverPostMessage(webservers[handle], message)];
      }
    }

    /** `_audience_window_destroy`. */
    method DestroyWindow(handle: Handle)
      modifies this
      ensures calls == old(calls) + (if IsInitialized() then [NucleusDestroy(handle)] else [])
      ensures symbols == old(symbols) && negotiation == old(negotiation) && processHandler == old(processHandler)
      ensures webservers == old(webservers) && windowHandlers == old(windowHandlers)
    {
      if IsInitialized() {
        calls := calls + [NucleusDestroy(handle)];
      }
    }

    /** `_audience_main`. */
    method RunMain()
      modifies this
      ensures calls == old(calls) + (if IsInitialized() then [NucleusMain] else [])
      ensures symbols == old(symbols) && negotiation == old(negotiation) && processHandler == old(processHandler)
      ensures webservers == old(webservers) && windowHandlers == old(windowHandlers)
    {
      if IsInitialized() {
        calls := calls + [NucleusMain];
      }
    }

    /** `_audience_on_window_message`: to the window's message handler, if
        it has one. */
    method OnWindowMessage(handle: Handle, message: string)
      modifies this
      ensures calls == old(calls) +
        (if handle in windowHandlers && windowHandlers[handle].onMessage.Some?
         then [MessageCallback(windowHandlers[handle].onMessage.value, handle, message)] else [])
      ensures symbols == old(symbols) && negotiation == old(negotiation) && processHandler == old(processHandler)
      ensures webservers == old(webservers) && windowHandlers == old(windowHandlers)
    {
      if handle in windowHandlers && windowHandlers[handle].onMessage.Some? {
        calls := calls + [MessageCallback(windowHandlers[handle].onMessage.value, handle, message)];
      }
    }

    /** The message callback a webserver started by `CreateWindow` runs
        (run on the nucleus thread): the server is looked up in the
        registry's server-to-window view, and the message goes to that
        window's message handler. A message of a server no longer
        registered is dropped. */
    method OnWebserverMessage(server: nat, message: string)
      requires Valid()
      modifies this
      ensures forall h | h in webservers && webservers[h] == server ::
        calls == old(calls) +
          (if h in windowHandlers && windowHandlers[h].onMessage.Some?
           then [MessageCallback(windowHandlers[h].onMessage.value, h, message)] else [])
      ensures (forall h | h in webservers :: webservers[h] != server) ==> calls == old(calls)
      ensures symbols == old(symbols) && negotiation == old(negotiation) && processHandler == old(processHandler)
      ensures webservers == old(webservers) && windowHandlers == old(windowHandlers)
    {
      var found := set h | h in webservers && webservers[h] == server;
      if found != {} {
        var handle :| handle in found;
        assert forall h | h in webservers && webservers[h] == server :: h == handle;
        OnWindowMessage(handle, message);
      } else {
        assert forall h | h in webservers :: h !in found;
      }
    }

    /** `_audience_on_window_will_close`. */
    method OnWindowWillClose(handle: Handle)
      modifies this
      ensures calls == old(calls) +
        (if handle in windowHandlers && windowHandlers[handle].onWillClose.Some?
         then [WillCloseCallback(windowHandlers[handle].onWillClose.value, handle)] else [])
      ensures symbols == old(symbols) && negotiation == old(negotiation) && processHandler == old(processHandler)
      ensures webservers == old(webservers) && windowHandlers == old(windowHandlers)
    {
      if handle in windowHandlers && windowHandlers[handle].onWillClose.Some? {
        calls := calls + [WillCloseCallback(windowHandlers[handle].onWillClose.value, handle)];
      }
    }

    /** `_audience_on_window_close`: the window's close handler runs, then
        its webserver, if any, leaves the registry and is stopped. The
        window's handlers stay registered. */
    method OnWindowClose(handle: Handle)
      requires Valid()
      modifies this
      ensures Valid()
      ensures calls == old(calls) +
        (if handle in windowHandlers && windowHandlers[handle].onClose.Some?
         then [CloseCallback(windowHandlers[handle].onClose.value, handle)] else [])
        + (if handle in old(webservers) then [WebserverStop(old(webservers)[handle])] else [])
      ensures webservers == old(webservers) - {handle}
      ensures symbols == old(symbols) && negotiation == old(negotiation) && processHandler == old(processHandler)
      ensures windowHandlers == old(windowHandlers)
    {
      if handle in windowHandlers && windowHandlers[handle].onClose.Some? {
        calls := calls + [CloseCallback(windowHandlers[handle].onClose.value, handle)];
      }
      if handle in webservers {
        var server := webservers[handle];
        webservers := webservers - {handle};
        calls := calls + [WebserverStop(server)];
      }
    }

    /** `_audience_on_process_will_quit`. */
    method OnProcessWillQuit()
      modifies this
      ensures calls == old(calls) +
        (if processHandler.onWillQuit.Some? then [WillQuitCallback(processHandler.onWillQuit.value)] else [])
      ensures symbols == old(symbols) && negotiation == old(negotiation) && processHandler == old(processHandler)
      ensures webservers == old(webservers) && windowHandlers == old(windowHandlers)
    {
      if processHandler.onWillQuit.Some? {
        calls := calls + [WillQuitCallback(processHandler.onWillQuit.value)];
      }
    }

    /** `_audience_on_process_quit`. */
    method OnProcessQuit()
      modifies this
      ensures calls == old(calls) +
        (if processHandler.onQuit.Some? then [QuitCallback(processHandler.onQuit.value)] else [])
      ensures symbols == old(symbols) && negotiation == old(negotiation) && processHandler == old(processHandler)
      ensures webservers == old(webservers) && windowHandlers == old(windowHandlers)
    {
      if processHandler.onQuit.Some? {
        calls := calls + [QuitCallback(processHandler.onQuit.value)];
      }
    }
  }

  /** How a window of a web-app type is opened. */
  datatype Routing = Refused | Direct | ViaWebserver

  /** The route of a window: nothing before initialisation; directly only
      for a type the nucleus handles; through a webserver only for a
      directory and a nucleus handling URLs. */
  function Route(initialized: bool, n: Negotiation, t: NucleusRegistry.WebappType): (r: Routing)
    ensures r != Refused ==> initialized
    ensures r == Direct ==> (t == NucleusRegistry.Url ==> n.handlesUrl) && (t == NucleusRegistry.Directory ==> n.handlesDirectory)
    ensures r == ViaWebserver ==> t == NucleusRegistry.Directory && n.handlesUrl && !n.handlesDirectory
  {
    if !initialized then Refused
    else if t == NucleusRegistry.Url && n.handlesUrl then Direct
    else if t == NucleusRegistry.Directory && n.handlesDirectory then Direct
    else if t == NucleusRegistry.Directory && n.handlesUrl then ViaWebserver
    else Refused
  }

  /** The nucleus is only ever asked to open what it said it handles: a
      window goes to it directly exactly when it handles the window's type,
      through a webserver exactly when it is a directory and the nucleus
      handles URLs only, and a nucleus handling neither type opens
      nothing. */
  lemma RouteRespectsNegotiation(n: Negotiation, t: NucleusRegistry.WebappType)
    ensures Route(true, n, t) == Direct <==>
      (t == NucleusRegistry.Url && n.handlesUrl) || (t == NucleusRegistry.Directory && n.handlesDirectory)
    ensures Route(true, n, t) == ViaWebserver <==>
      t == NucleusRegistry.Directory && !n.handlesDirectory && n.handlesUrl
    ensures !n.handlesUrl && !n.handlesDirectory ==> Route(true, n, t) == Refused
    ensures Route(false, n, t) == Refused
  {
  }

  /** The index of a usable candidate after only unusable ones is the first
      usable one, so `Tried` ends there. */
  lemma LoadCallsStep(names: seq<string>, j: nat)
    requires j < |names|
    ensures LoadCalls(names[..j + 1]) == LoadCalls(names[..j]) + [LoadLibrary(names[j])]
  {
    assert names[..j + 1][..j] == names[..j];
  }

  /** With no usable candidate, all of them are tried. */
  lemma NoneUsable(names: seq<string>, libraries: string -> Library)
    requires forall k :: 0 <= k < |names| ==> !Usable(libraries(names[k]))
    ensures FirstUsable(names, libraries).None? && Tried(names, libraries) == names[..|names|]
  {
  }

  lemma {:induction false} FirstUsableAt(names: seq<string>, libraries: string -> Library, j: nat)
    requires j < |names| && Usable(libraries(names[j]))
    requires forall k :: 0 <= k < j ==> !Usable(libraries(names[k]))
    ensures FirstUsable(names, libraries) == Some(j)
    ensures Tried(names, libraries) == names[..j + 1]
  {
    if j > 0 {
      FirstUsableAt(names[1..], libraries, j - 1);
    }
  }
}
