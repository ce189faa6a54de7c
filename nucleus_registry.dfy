/** The window registry every nucleus shares: a one-to-one map between
    16-bit window handles and the nucleus's window contexts, a wrapping
    handle counter, and the protocol negotiation stored at start-up. The
    map's left view is ordered by handle, so it is kept here as a sequence
    of (handle, context) entries in strictly ascending handle order. Calls
    into the platform code (`nucleus_impl_*`) and into the shell's event
    handlers are entries of the log `calls`; their answers (the context a
    window creation yields, a window's focus, whether init succeeded) are
    parameters. Context 0 is the null context. */
module NucleusRegistry {
  import opened Wrappers

  /** `AudienceWindowHandle` is a `uint16_t`. */
  type Handle = h: int | 0 <= h < 0x1_0000

  /** A window context; 0 is the null context. */
  type Context = nat

  datatype Rect = Rect(x: real, y: real, width: real, height: real)
  datatype WebappType = Directory | Url

  /** The details the shell passes to `nucleus_window_create`. */
  datatype WindowDetails = WindowDetails(webappType: WebappType, location: string, loadingTitle: Option<string>)

  /** The details the platform code receives. */
  datatype ImplDetails = ImplDetails(webappType: WebappType, location: string, loadingTitle: string)

  datatype Call =
    | ImplInit(icons: seq<string>)
    | ImplCreate(details: ImplDetails)
    | ImplUpdatePosition(context: Context, position: Rect)
    | ImplPostMessage(context: Context, message: string)
    | ImplDestroy(context: Context)
    | ImplQuit
    | OnMessage(handle: Handle, message: string)
    | OnCloseIntent(handle: Handle)
    | OnClose(handle: Handle, isLastWindow: bool)
    | OnQuit

  type Entries = seq<(Handle, Context)>

  // ---------------------------------------------------------------------
  // The map as an ordered sequence of entries
  // ---------------------------------------------------------------------

  /** Strictly ascending handles (so each handle appears once). */
  predicate Ascending(ws: Entries)
  {
    |ws| == 0 || ((forall e | e in ws[1..] :: ws[0].0 < e.0) && Ascending(ws[1..]))
  }

  /** No context appears twice. */
  predicate DistinctContexts(ws: Entries)
  {
    |ws| == 0 || ((forall e | e in ws[1..] :: e.1 != ws[0].1) && DistinctContexts(ws[1..]))
  }

  /** A one-to-one map without the zero handle or the null context. */
  predicate WellFormed(ws: Entries)
  {
    && Ascending(ws)
    && DistinctContexts(ws)
    && (forall e | e in ws :: e.0 != 0 && e.1 != 0)
  }

  function Handles(ws: Entries): set<int>
  {
    set e | e in ws :: e.0 as int
  }

  function Contexts(ws: Entries): set<Context>
  {
    set e | e in ws :: e.1
  }

  /** `left.find(handle)`. */
  function ContextOf(ws: Entries, h: Handle): (r: Option<Context>)
    ensures r.Some? <==> h as int in Handles(ws)
    ensures r.Some? ==> (h, r.value) in ws
  {
    if |ws| == 0 then None
    else if ws[0].0 == h then Some(ws[0].1)
    else
      var r := ContextOf(ws[1..], h);
      assert Handles(ws) == {ws[0].0 as int} + Handles(ws[1..]) by {
        assert ws == [ws[0]] + ws[1..];
      }
      r
  }

  /** `right.find(context)`. */
  function HandleOf(ws: Entries, c: Context): (r: Option<Handle>)
    ensures r.Some? <==> c in Contexts(ws)
    ensures r.Some? ==> (r.value, c) in ws
  {
    if |ws| == 0 then None
    else if ws[0].1 == c then Some(ws[0].0)
    else
      var r := HandleOf(ws[1..], c);
      assert Contexts(ws) == {ws[0].1} + Contexts(ws[1..]) by {
        assert ws == [ws[0]] + ws[1..];
      }
      r
  }

  /** Inserting a pair at its place in handle order. */
  function Insert(ws: Entries, h: Handle, c: Context): (r: Entries)
    ensures |r| == |ws| + 1
    ensures forall e :: e in r <==> e in ws || e == (h, c)
  {
    if |ws| == 0 || h < ws[0].0 then [(h, c)] + ws
    else
      var rest := Insert(ws[1..], h, c);
      assert forall e :: e in ws <==> e == ws[0] || e in ws[1..] by {
        assert ws == [ws[0]] + ws[1..];
      }
      [ws[0]] + rest
  }

  /** `right.erase(context)`: drop the entry of `c`, if any. */
  function Erase(ws: Entries, c: Context): (r: Entries)
    ensures forall e :: e in r <==> e in ws && e.1 != c
    ensures |r| <= |ws|
  {
    if |ws| == 0 then []
    else
      var rest := Erase(ws[1..], c);
      assert forall e :: e in ws <==> e == ws[0] || e in ws[1..] by {
        assert ws == [ws[0]] + ws[1..];
      }
      (if ws[0].1 == c then [] else [ws[0]]) + rest
  }

  /** Inserting a fresh handle with a fresh non-null context keeps the map
      one-to-one and ordered. */
  lemma {:induction false} InsertWellFormed(ws: Entries, h: Handle, c: Context)
    requires WellFormed(ws)
    requires h != 0 && c != 0 && h as int !in Handles(ws) && c !in Contexts(ws)
    ensures WellFormed(Insert(ws, h, c))
    ensures Handles(Insert(ws, h, c)) == Handles(ws) + {h as int}
    ensures Contexts(Insert(ws, h, c)) == Contexts(ws) + {c}
  {
    var r := Insert(ws, h, c);
    if |ws| == 0 || h < ws[0].0 {
      assert r[1..] == ws;
      if |ws| > 0 {
        forall e | e in ws ensures h < e.0 {
          if e != ws[0] {
            AscendingHead(ws, e);
          }
        }
      }
    } else {
      assert ws == [ws[0]] + ws[1..];
      assert h as int !in Handles(ws[1..]) && c !in Contexts(ws[1..]);
      InsertWellFormed(ws[1..], h, c);
      assert r[1..] == Insert(ws[1..], h, c);
      assert ws[0].0 != h && ws[0].1 != c;
    }
  }

  /** The head of an ascending sequence is below every other entry. */
  lemma AscendingHead(ws: Entries, e: (Handle, Context))
    requires Ascending(ws) && |ws| > 0 && e in ws && e != ws[0]
    ensures ws[0].0 < e.0
  {
    assert ws == [ws[0]] + ws[1..];
  }

  /** Erasing keeps the map one-to-one and ordered, and removes exactly the
      context erased. */
  lemma {:induction false} EraseWellFormed(ws: Entries, c: Context)
    requires WellFormed(ws)
    ensures WellFormed(Erase(ws, c))
    ensures Contexts(Erase(ws, c)) == Contexts(ws) - {c}
  {
    if |ws| > 0 {
      EraseWellFormed(ws[1..], c);
      assert ws == [ws[0]] + ws[1..];
      var r := Erase(ws, c);
      if ws[0].1 != c {
        assert r[1..] == Erase(ws[1..], c);
      } else {
        assert r == Erase(ws[1..], c);
      }
    }
  }

  /** An ordered map has as many handles as entries. */
  lemma {:induction false} HandleCount(ws: Entries)
    requires Ascending(ws)
    ensures |Handles(ws)| == |ws|
  {
    if |ws| > 0 {
      HandleCount(ws[1..]);
      assert ws == [ws[0]] + ws[1..];
      assert Handles(ws) == {ws[0].0 as int} + Handles(ws[1..]);
      assert ws[0].0 as int !in Handles(ws[1..]);
    }
  }

  /** The non-zero handles below `n`. */
  function NonZeroBelow(n: nat): (r: set<int>)
    ensures forall h :: h in r <==> 1 <= h < n
    ensures n >= 1 ==> |r| == n - 1
  {
    if n <= 1 then {} else NonZeroBelow(n - 1) + {n - 1}
  }

  /** With fewer than 65535 windows some non-zero handle is free. */
  lemma FreeHandleExists(ws: Entries)
    requires WellFormed(ws) && |ws| < 0xFFFF
    ensures exists h: int :: 1 <= h < 0x1_0000 && h !in Handles(ws)
  {
    HandleCount(ws);
    var all := NonZeroBelow(0x1_0000);
    if all <= Handles(ws) {
      SubsetSize(all, Handles(ws));
      assert false;
    }
    var h :| h in all && h !in Handles(ws);
  }

  lemma SubsetSize(a: set<int>, b: set<int>)
    requires a <= b
    ensures |a| <= |b|
  {
    assert b == a + (b - a);
  }

  /** The number of increments from `a` to `b` on the wrapping counter. */
  function Steps(a: Handle, b: Handle): (d: nat)
    ensures d < 0x1_0000
  {
    (b - a) % 0x1_0000
  }

  /** The counter value `k` increments after `a`. */
  function Advance(a: Handle, k: nat): Handle
  {
    (a + k) % 0x1_0000
  }

  /** Every counter value taken from `start` before reaching `h` was the
      zero handle or in use. */
  predicate SkippedInUse(start: Handle, h: Handle, ws: Entries)
  {
    forall k :: 0 <= k < Steps(start, h) ==> Advance(start, k) == 0 || Advance(start, k) as int in Handles(ws)
  }

  /** The last index among the first `n` entries whose window has focus,
      or -1. */
  function LastFocused(ws: Entries, focus: Context -> bool): (f: int)
    ensures -1 <= f < |ws|
    ensures f >= 0 ==> focus(ws[f].1)
    ensures f == -1 <==> forall i :: 0 <= i < |ws| ==> !focus(ws[i].1)
    ensures forall i :: f < i < |ws| ==> !focus(ws[i].1)
  {
    if |ws| == 0 then -1
    else if focus(ws[|ws| - 1].1) then |ws| - 1
    else
      var f := LastFocused(ws[..|ws| - 1], focus);
      assert forall i :: 0 <= i < |ws| - 1 ==> ws[..|ws| - 1][i] == ws[i];
      f
  }

  /** Keep the present slots, in slot order. */
  function Present(slots: seq<Option<string>>): (r: seq<string>)
    ensures |r| <= |slots|
    ensures forall s :: s in r <==> Some(s) in slots
  {
    if |slots| == 0 then []
    else
      var front := slots[..|slots| - 1];
      assert slots == front + [slots[|slots| - 1]];
      Present(front) + (if slots[|slots| - 1].Some? then [slots[|slots| - 1].value] else [])
  }

  class Registry {
    /** `nucleus_window_context_map`, in handle order. */
    var windows: Entries
    /** `nucleus_window_context_next_handle`. */
    var nextHandle: Handle
    /** `nucleus_protocol_negotiation`, by identity. */
    var negotiation: Option<nat>
    var calls: seq<Call>

    ghost predicate Valid()
      reads this
    {
      WellFormed(windows)
    }

    /** The registry before `nucleus_init`: no windows, counter 0, no
        negotiation. */
    constructor ()
      ensures Valid()
      ensures windows == [] && nextHandle == 0 && negotiation == None && calls == []
    {
      windows := [];
      nextHandle := 0;
      negotiation := None;
      calls := [];
    }

    /** `util_is_only_window`. */
    function IsOnlyWindow(context: Context): (only: bool)
      reads this
      ensures only <==> |windows| == 1 && windows[0].1 == context
    {
      assert context in Contexts(windows) <==> exists e :: e in windows && e.1 == context;
      |windows| == 1 && HandleOf(windows, context).Some?
    }

    /** `bridge_init`: hand the present icon slots, in slot order, to the
        platform init; keep the negotiation only when it succeeds. */
    method Init(negotiationId: nat, slots: seq<Option<string>>, succeeded: bool) returns (status: bool)
      requires Valid()
      modifies this
      ensures Valid()
      ensures status == succeeded
      ensures calls == old(calls) + [ImplInit(Present(slots))]
      ensures negotiation == (if succeeded then Some(negotiationId) else old(negotiation))
      ensures windows == old(windows) && nextHandle == old(nextHandle)
    {
      var icons: seq<string> := [];
      var i := 0;
      while i < |slots|
        invariant 0 <= i <= |slots|
        invariant icons == Present(slots[..i])
      {
        assert slots[..i + 1][..i] == slots[..i];
        if slots[i].Some? {
          icons := icons + [slots[i].value];
        }
        i := i + 1;
      }
      assert slots[..|slots|] == slots;
      calls := calls + [ImplInit(icons)];
      status := succeeded;
      if status {
        negotiation := Some(negotiationId);
      }
    }

    /** `bridge_window_list`: the first `cap` windows in handle order, and
        the index of the last of them that has focus (-1 if none). */
    method WindowList(cap: nat, focus: Context -> bool) returns (handles: seq<Handle>, focused: int)
      ensures |handles| == if |windows| < cap then |windows| else cap
      ensures forall i :: 0 <= i < |handles| ==> handles[i] == windows[i].0
      ensures focused == LastFocused(windows[..|handles|], focus)
    {
      handles := [];
      focused := -1;
      var i := 0;
      while i < |windows|
        invariant 0 <= i <= |windows| && |handles| == i && i <= cap
        invariant forall k :: 0 <= k < i ==> handles[k] == windows[k].0
        invariant focused == LastFocused(windows[..i], focus)
      {
        if |handles| >= cap {
          break;
        }
        assert windows[..i + 1][..i] == windows[..i];
        if focus(windows[i].1) {
          focused := |handles|;
        }
        handles := handles + [windows[i].0];
        i := i + 1;
      }
    }

    /** The handle allocation loop of `bridge_window_create`: take the
        counter and advance it (wrapping at 2^16) until the taken value is
        neither 0 nor in use. It ends only while some non-zero handle is
        free. */
    method AllocateHandle() returns (handle: Handle)
      requires Valid() && |windows| < 0xFFFF
      modifies this
      ensures handle != 0 && handle as int !in Handles(windows)
      ensures nextHandle == Advance(handle, 1)
      ensures SkippedInUse(old(nextHandle), handle, windows)
      ensures windows == old(windows) && calls == old(calls) && negotiation == old(negotiation)
    {
      FreeHandleExists(windows);
      var free: int :| 1 <= free < 0x1_0000 && free !in Handles(windows);
      var start := nextHandle;
      handle := nextHandle;
      nextHandle := Advance(nextHandle, 1);
      while ContextOf(windows, handle).Some? || handle == 0
        invariant windows == old(windows) && calls == old(calls) && negotiation == old(negotiation)
        invariant nextHandle == Advance(handle, 1)
        invariant Steps(start, handle) <= Steps(start, free)
        invariant SkippedInUse(start, handle, windows)
        decreases Steps(start, free) - Steps(start, handle)
      {
        SkipOne(start, handle, free, windows);
        handle := nextHandle;
        nextHandle := Advance(nextHandle, 1);
      }
    }

    /** `bridge_window_create`: create the window with the loading title
        defaulting to "Loading..."; a null context gives the zero handle
        and changes nothing else. Otherwise the first free non-zero handle
        from the counter on is paired with the context (the bimap refuses a
        context it already holds). */
    method WindowCreate(details: WindowDetails, created: Context) returns (handle: Handle)
      requires Valid()
      requires created != 0 ==> |windows| < 0xFFFF
      modifies this
      ensures Valid()
      ensures calls == old(calls) + [ImplCreate(ImplDetails(details.webappType, details.location,
        if details.loadingTitle.Some? then details.loadingTitle.value else "Loading..."))]
      ensures created == 0 ==> handle == 0 && windows == old(windows) && nextHandle == old(nextHandle)
      ensures created != 0 ==>
        && handle != 0 && handle as int !in Handles(old(windows))
        && nextHandle == Advance(handle, 1)
        && SkippedInUse(old(nextHandle), handle, old(windows))
        && windows == (if created in Contexts(old(windows)) then old(windows) else Insert(old(windows), handle, created))
      ensures negotiation == old(negotiation)
    {
      var title := if details.loadingTitle.Some? then details.loadingTitle.value else "Loading...";
      calls := calls + [ImplCreate(ImplDetails(details.webappType, details.location, title))];
      if created == 0 {
        return 0;
      }
      handle := AllocateHandle();
      if HandleOf(windows, created).None? {
        InsertWellFormed(windows, handle, created);
        windows := Insert(windows, handle, created);
      }
    }

    /** `bridge_window_update_position`: forwarded for a known handle,
        otherwise nothing happens. */
    method UpdatePosition(handle: Handle, position: Rect)
      modifies this
      ensures windows == old(windows) && nextHandle == old(nextHandle) && negotiation == old(negotiation)
      ensures calls == old(calls) +
        (if ContextOf(windows, handle).Some? then [ImplUpdatePosition(ContextOf(windows, handle).value, position)] else [])
    {
      var context := ContextOf(windows, handle);
      if context.Some? {
        calls := calls + [ImplUpdatePosition(context.value, position)];
      }
    }

    /** `bridge_window_post_message`. */
    method PostMessage(handle: Handle, message: string)
      modifies this
      ensures windows == old(windows) && nextHandle == old(nextHandle) && negotiation == old(negotiation)
      ensures calls == old(calls) +
        (if ContextOf(windows, handle).Some? then [ImplPostMessage(ContextOf(windows, handle).value, message)] else [])
    {
      var context := ContextOf(windows, handle);
      if context.Some? {
        calls := calls + [ImplPostMessage(context.value, message)];
      }
    }

    /** `bridge_window_destroy`: asks the platform to destroy the window;
        the entry goes only when the window reports its close. */
    method Destroy(handle: Handle)
      modifies this
      ensures windows == old(windows) && nextHandle == old(nextHandle) && negotiation == old(negotiation)
      ensures calls == old(calls) +
        (if ContextOf(windows, handle).Some? then [ImplDestroy(ContextOf(windows, handle).value)] else [])
    {
      var context := ContextOf(windows, handle);
      if context.Some? {
        calls := calls + [ImplDestroy(context.value)];
      }
    }

    /** `util_destroy_all_windows`: destroy every window of a snapshot of
        the map, in handle order; report whether there was any. */
    method DestroyAll() returns (any: bool)
      modifies this
      ensures any <==> |windows| > 0
      ensures calls == old(calls) + DestroyCalls(windows)
      ensures windows == old(windows) && nextHandle == old(nextHandle) && negotiation == old(negotiation)
    {
      var snapshot := windows;
      var i := 0;
      while i < |snapshot|
        invariant 0 <= i <= |snapshot| && windows == snapshot == old(windows)
        invariant calls == old(calls) + DestroyCalls(snapshot[..i])
        invariant nextHandle == old(nextHandle) && negotiation == old(negotiation)
      {
        assert snapshot[..i + 1][..i] == snapshot[..i];
        calls := calls + [ImplDestroy(snapshot[i].1)];
        i := i + 1;
      }
      assert snapshot[..i] == snapshot;
      any := |snapshot| > 0;
    }

    /** `bridge_quit`: destroy every window, then quit. */
    method Quit()
      modifies this
      ensures calls == old(calls) + DestroyCalls(windows) + [ImplQuit]
      ensures windows == old(windows) && nextHandle == old(nextHandle) && negotiation == old(negotiation)
    {
      var _ := DestroyAll();
      calls := calls + [ImplQuit];
    }

    /** `emit_window_message`: passed to the shell under the window's
        handle; an unknown context is ignored. */
    method EmitWindowMessage(context: Context, message: string)
      modifies this
      ensures windows == old(windows) && nextHandle == old(nextHandle) && negotiation == old(negotiation)
      ensures calls == old(calls) +
        (if HandleOf(windows, context).Some? then [OnMessage(HandleOf(windows, context).value, message)] else [])
    {
      var handle := HandleOf(windows, context);
      if handle.Some? {
        calls := calls + [OnMessage(handle.value, message)];
      }
    }

    method EmitWindowCloseIntent(context: Context)
      modifies this
      ensures windows == old(windows) && nextHandle == old(nextHandle) && negotiation == old(negotiation)
      ensures calls == old(calls) +
        (if HandleOf(windows, context).Some? then [OnCloseIntent(HandleOf(windows, context).value)] else [])
    {
      var handle := HandleOf(windows, context);
      if handle.Some? {
        calls := calls + [OnCloseIntent(handle.value)];
      }
    }

    /** `emit_window_close`: tell the shell under the window's handle, then
        remove the window from the map; an unknown context is ignored. */
    method EmitWindowClose(context: Context, isLastWindow: bool)
      requires Valid()
      modifies this
      ensures Valid()
      ensures old(HandleOf(windows, context)).Some? ==>
        && calls == old(calls) + [OnClose(old(HandleOf(windows, context)).value, isLastWindow)]
        && windows == Erase(old(windows), context)
        && Contexts(windows) == Contexts(old(windows)) - {context}
      ensures old(HandleOf(windows, context)).None? ==> calls == old(calls) && windows == old(windows)
      ensures nextHandle == old(nextHandle) && negotiation == old(negotiation)
    {
      var handle := HandleOf(windows, context);
      if handle.Some? {
        calls := calls + [OnClose(handle.value, isLastWindow)];
        EraseWellFormed(windows, context);
        windows := Erase(windows, context);
      }
    }

    method EmitAppQuit()
      modifies this
      ensures calls == old(calls) + [OnQuit]
      ensures windows == old(windows) && nextHandle == old(nextHandle) && negotiation == old(negotiation)
    {
      calls := calls + [OnQuit];
    }
  }

  /** One destroy request per entry, in order. */
  function DestroyCalls(ws: Entries): (cs: seq<Call>)
    ensures |cs| == |ws|
    ensures forall i :: 0 <= i < |ws| ==> cs[i] == ImplDestroy(ws[i].1)
  {
    if |ws| == 0 then [] else DestroyCalls(ws[..|ws| - 1]) + [ImplDestroy(ws[|ws| - 1].1)]
  }

  /** One turn of the allocation loop: a taken value that is zero or in
      use is not the free handle, so the next one is still no further from
      the start than the free one, and every value skipped was zero or in
      use. */
  lemma SkipOne(start: Handle, h: Handle, free: int, ws: Entries)
    requires 1 <= free < 0x1_0000 && free !in Handles(ws)
    requires h == 0 || h as int in Handles(ws)
    requires Steps(start, h) <= Steps(start, free) && SkippedInUse(start, h, ws)
    ensures Steps(start, Advance(h, 1)) == Steps(start, h) + 1 <= Steps(start, free)
    ensures SkippedInUse(start, Advance(h, 1), ws)
  {
    assert h != free;
    StepsAdvance(start, h);
    assert Steps(start, h) != Steps(start, free) by {
      StepsReach(start, h);
      StepsReach(start, free);
    }
  }

  lemma StepsReach(start: Handle, h: int)
    requires 0 <= h < 0x1_0000
    ensures Advance(start, Steps(start, h)) == h
  {
  }

  /** One more increment of the counter is one more step from `start`, as
      long as the target has not been reached. */
  lemma StepsAdvance(start: Handle, h: Handle)
    requires Steps(start, h) < 0xFFFF
    ensures Steps(start, Advance(h, 1)) == Steps(start, h) + 1
    ensures Advance(start, Steps(start, h)) == h
  {
  }
}
