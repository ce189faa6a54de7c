/** The runtime's end of the control channel, as seen from its event loop:
    received bytes are framed into command lines, commands wait until the
    channel is activated and are then executed in arrival order, and
    events (including command replies) wait until the peer is connected
    and are then written in queue order. Each handler below is one atomic
    step of the loop; the threads, locks and async wake-ups around them are
    not modelled. Parsing a line and the library's answers are fixed
    oracles `parse` and `env` (the latter indexed by the number of
    commands executed before). */
module RuntimeChannel {
  import opened Wrappers
  import opened Json
  import opened Framing
  import opened ChannelCommands

  /** One line of the channel: ends in its only line feed. */
  predicate IsLine(e: string)
  {
    |e| > 0 && e[|e| - 1] == '\n' && '\n' !in e[..|e| - 1]
  }

  /** `{"name": name, "data": data}`; the printer writes the keys sorted,
      so "data" comes first. */
  function EventObject(name: string, data: Json): (j: Json)
    ensures Get(j, "name") == Some(JStr(name)) && Get(j, "data") == Some(data)
  {
    var members := [("data", data), ("name", JStr(name))];
    assert members[1..][0] == ("name", JStr(name));
    JObj(members)
  }

  /** The bytes of one emitted event: a single line that the peer's line
      framing reads back as exactly the printed event. */
  function EventLine(name: string, data: Json): (e: string)
    ensures IsLine(e)
    ensures Lines(e) == [Dump(EventObject(name, data))] && Tail(e) == ""
  {
    var text := Dump(EventObject(name, data));
    DumpIsOneLine(EventObject(name, data));
    assert |text| > 0 by {
      assert text[0] == '{';
    }
    assert (text + "\n")[..|text|] == text;
    FramingRecoversLines([text]);
    assert Terminated([text]) == text + "\n" by {
      assert [text][1..] == [];
    }
    text + "\n"
  }

  /** An event printer: `EventLine`, passed as a value. */
  type Printer = (string, Json) -> string

  /** The event line of a command reply. */
  function ReplyLine(printer: Printer, r: Reply): string
  {
    printer(ReplyEvent(r).0, ReplyEvent(r).1)
  }

  /** The event lines of replies, in order. */
  function ReplyLines(printer: Printer, rs: seq<Reply>): (es: seq<string>)
    ensures |es| == |rs|
    ensures forall i :: 0 <= i < |rs| ==> es[i] == ReplyLine(printer, rs[i])
  {
    if |rs| == 0 then [] else ReplyLines(printer, rs[..|rs| - 1]) + [ReplyLine(printer, rs[|rs| - 1])]
  }

  /** What one command line leads to: `None` when it is not a JSON object,
      otherwise the library calls made and the reply. */
  type Outcome = Option<(seq<Effect>, Reply)>

  /** A command executor: `ExecuteCommand`, passed as a value. */
  type Executor = (Option<Json>, Env) -> Outcome

  /** The outcome of each of `commands`, the first executed with
      environment index `start`. */
  function Outcomes(commands: seq<string>, execute: Executor, parse: string -> Option<Json>, env: nat -> Env,
                    start: nat): (outs: seq<Outcome>)
    ensures |outs| == |commands|
  {
    if |commands| == 0 then []
    else Outcomes(commands[..|commands| - 1], execute, parse, env, start) +
         [execute(parse(commands[|commands| - 1]), env(start + |commands| - 1))]
  }

  /** Outcome `i` is that of command `i`, executed with environment index
      `start + i`. */
  lemma {:induction false} OutcomeAt(commands: seq<string>, execute: Executor, parse: string -> Option<Json>,
                                     env: nat -> Env, start: nat, i: nat)
    requires i < |commands|
    ensures Outcomes(commands, execute, parse, env, start)[i] == execute(parse(commands[i]), env(start + i))
    decreases |commands|
  {
    if i < |commands| - 1 {
      var front := commands[..|commands| - 1];
      OutcomeAt(front, execute, parse, env, start, i);
      assert front[i] == commands[i];
    }
  }

  /** All library calls and all replies of a run of outcomes, in order. */
  function Folded(outs: seq<Outcome>): (seq<Effect>, seq<Reply>)
  {
    if |outs| == 0 then ([], [])
    else
      var prev := Folded(outs[..|outs| - 1]);
      var last := outs[|outs| - 1];
      if last.None? then prev else (prev.0 + last.value.0, prev.1 + [last.value.1])
  }

  /** Executing `commands` in order, the first with environment index
      `start`: the library calls made and the replies emitted. A line that
      does not parse to an object produces neither. */
  function Executed(commands: seq<string>, parse: string -> Option<Json>, env: nat -> Env, start: nat)
    : (seq<Effect>, seq<Reply>)
  {
    Folded(Outcomes(commands, ExecuteCommand, parse, env, start))
  }

  /** The ids of replies, in order. */
  function ReplyIds(rs: seq<Reply>): (ids: seq<string>)
    ensures |ids| == |rs| && forall i :: 0 <= i < |rs| ==> ids[i] == rs[i].id
  {
    seq(|rs|, i requires 0 <= i < |rs| => rs[i].id)
  }

  /** The reply ids of the lines that are JSON objects, in line order. */
  function ObjectIds(commands: seq<string>, parse: string -> Option<Json>): seq<string>
  {
    if |commands| == 0 then []
    else
      var last := parse(commands[|commands| - 1]);
      ObjectIds(commands[..|commands| - 1], parse) +
        (if last.Some? && last.value.JObj? then [CommandId(last.value)] else [])
  }

  /** Executing one more line adds that line's reply, if it has one. */
  lemma ExecutedSnoc(commands: seq<string>, parse: string -> Option<Json>, env: nat -> Env, start: nat)
    requires |commands| > 0
    ensures var n := |commands| - 1;
      var r := ExecuteCommand(parse(commands[n]), env(start + n));
      Executed(commands, parse, env, start).1 ==
        Executed(commands[..n], parse, env, start).1 + (if r.Some? then [r.value.1] else [])
  {
    var n := |commands| - 1;
    var outs := Outcomes(commands, ExecuteCommand, parse, env, start);
    assert outs[..n] == Outcomes(commands[..n], ExecuteCommand, parse, env, start);
  }

  /** The replies come in command order: reply `i` answers the `i`-th line
      that is a JSON object. */
  lemma {:induction false} RepliesInCommandOrder(commands: seq<string>, parse: string -> Option<Json>,
                                                 env: nat -> Env, start: nat)
    ensures ReplyIds(Executed(commands, parse, env, start).1) == ObjectIds(commands, parse)
  {
    if |commands| > 0 {
      var n := |commands| - 1;
      var front := commands[..n];
      RepliesInCommandOrder(front, parse, env, start);
      ExecutedSnoc(commands, parse, env, start);
      var before := Executed(front, parse, env, start).1;
      var last := parse(commands[n]);
      var r := ExecuteCommand(last, env(start + n));
      assert ObjectIds(commands, parse) ==
        ObjectIds(front, parse) + (if r.Some? then [r.value.1.id] else []);
      if r.Some? {
        ReplyIdsSnoc(before, r.value.1);
      } else {
        assert before + [] == before;
      }
    }
  }

  lemma ReplyIdsSnoc(rs: seq<Reply>, x: Reply)
    ensures ReplyIds(rs + [x]) == ReplyIds(rs) + [x.id]
  {
  }

  /** Every parsable command gets exactly one reply, in command order: the
      replies are as many as the lines that are JSON objects, each carries
      the id of one of them, and reply `i` carries the id of the `i`-th. */
  lemma OneReplyPerCommand(commands: seq<string>, parse: string -> Option<Json>, env: nat -> Env, start: nat)
    ensures |Executed(commands, parse, env, start).1| == Count(Objects(commands, parse))
    ensures forall i :: 0 <= i < |Executed(commands, parse, env, start).1| ==>
      IdOfSomeObject(Executed(commands, parse, env, start).1[i].id, commands, parse)
    ensures ReplyIds(Executed(commands, parse, env, start).1) == ObjectIds(commands, parse)
  {
    RepliesInCommandOrder(commands, parse, env, start);
    var outs := Outcomes(commands, ExecuteCommand, parse, env, start);
    assert Executed(commands, parse, env, start) == Folded(outs);
    FoldedReplies(outs);
    var present := seq(|outs|, i requires 0 <= i < |outs| => outs[i].Some?);
    forall i | 0 <= i < |commands|
      ensures present[i] == Objects(commands, parse)[i]
    {
      OutcomeAt(commands, ExecuteCommand, parse, env, start, i);
    }
    assert present == Objects(commands, parse);
    var replies := Folded(outs).1;
    forall i | 0 <= i < |replies|
      ensures IdOfSomeObject(replies[i].id, commands, parse)
    {
      var k :| 0 <= k < |outs| && outs[k].Some? && replies[i] == outs[k].value.1;
      OutcomeAt(commands, ExecuteCommand, parse, env, start, k);
      var r := ExecuteCommand(parse(commands[k]), env(start + k));
      assert r == outs[k];
      assert Objects(commands, parse)[k] && replies[i].id == CommandId(parse(commands[k]).value);
    }
  }

  /** `id` is the id of one of the commands that parse to an object. */
  predicate IdOfSomeObject(id: string, commands: seq<string>, parse: string -> Option<Json>)
  {
    exists k :: 0 <= k < |commands| && Objects(commands, parse)[k] && id == CommandId(parse(commands[k]).value)
  }

  /** Which of `commands` parse to a JSON object. */
  function Objects(commands: seq<string>, parse: string -> Option<Json>): (objs: seq<bool>)
    ensures |objs| == |commands|
  {
    seq(|commands|, i requires 0 <= i < |commands| => parse(commands[i]).Some? && parse(commands[i]).value.JObj?)
  }

  /** The fold keeps one reply per present outcome, each taken from one of them. */
  lemma {:induction false} FoldedReplies(outs: seq<Outcome>)
    ensures |Folded(outs).1| == Count(seq(|outs|, i requires 0 <= i < |outs| => outs[i].Some?))
    ensures forall i :: 0 <= i < |Folded(outs).1| ==>
      exists k :: 0 <= k < |outs| && outs[k].Some? && Folded(outs).1[i] == outs[k].value.1
  {
    if |outs| > 0 {
      var front := outs[..|outs| - 1];
      var last := outs[|outs| - 1];
      FoldedReplies(front);
      var present := seq(|outs|, i requires 0 <= i < |outs| => outs[i].Some?);
      assert present[..|present| - 1] == seq(|front|, i requires 0 <= i < |front| => front[i].Some?);
      var before := Folded(front).1;
      var rs := Folded(outs).1;
      assert rs == if last.None? then before else before + [last.value.1];
      forall i | 0 <= i < |rs|
        ensures exists k :: 0 <= k < |outs| && outs[k].Some? && rs[i] == outs[k].value.1
      {
        if i < |before| {
          assert rs[i] == before[i];
          var k :| 0 <= k < |front| && front[k].Some? && before[i] == front[k].value.1;
          assert outs[k] == front[k];
        } else {
          assert last.Some? && rs[i] == last.value.1;
        }
      }
    }
  }

  /** The number of `true` entries. */
  function Count(bs: seq<bool>): nat
  {
    if |bs| == 0 then 0 else Count(bs[..|bs| - 1]) + (if bs[|bs| - 1] then 1 else 0)
  }

  /** The loop's state flags, gathered for "unchanged" statements. */
  datatype Flags = Flags(activated: bool, connected: bool, peerOpen: bool, reading: bool,
                         peerShutdown: bool, emitOpen: bool, activateOpen: bool,
                         shutdownOpen: bool, loopStopped: bool)

  /** Non-empty pieces of input without a line feed. */
  ghost predicate PiecesOk(pieces: seq<string>)
  {
    forall k :: 0 <= k < |pieces| ==> |pieces[k]| > 0 && '\n' !in pieces[k]
  }

  ghost predicate LinesOk(lines: seq<string>)
  {
    forall k :: 0 <= k < |lines| ==> IsLine(lines[k])
  }

  /** The printer writes every event as one line. */
  ghost predicate PrinterOk(printer: Printer)
  {
    forall name, data :: IsLine(printer(name, data))
  }

  class Channel {
    var isActivated: bool
    var isConnected: bool
    /** The peer pipe exists (it is reset once closed). */
    var peerOpen: bool
    var reading: bool
    var peerShutdownRequested: bool
    /** The async handles: events are queued only while the emit handle exists. */
    var emitOpen: bool
    var activateOpen: bool
    var shutdownOpen: bool
    var loopStopped: bool
    /** Received bytes after the last line feed, as the chunks they came in. */
    var incomingChunks: seq<string>
    var incomingCommands: seq<string>
    var outgoingEvents: seq<string>
    /** Every buffer written to the peer, in order. */
    var written: seq<string>
    /** Every library call made, in order. */
    var effects: seq<Effect>
    /** The number of commands executed so far. */
    var executed: nat
    const parse: string -> Option<Json>
    const env: nat -> Env
    /** `_peer_execute_command`, bound to `ExecuteCommand` at construction;
        the queue handlers below hold for it as a value. */
    const execute: Executor
    /** The event printer, bound to `EventLine` at construction. */
    const printer: Printer

    ghost function State(): Flags
      reads `isActivated, `isConnected, `peerOpen, `reading, `peerShutdownRequested
      reads `emitOpen, `activateOpen, `shutdownOpen, `loopStopped
    {
      Flags(isActivated, isConnected, peerOpen, reading, peerShutdownRequested,
            emitOpen, activateOpen, shutdownOpen, loopStopped)
    }

    /** Held chunks are non-empty and hold no line feed; commands are
        non-empty lines without their line feed; every queued or written
        event is one line. */
    ghost predicate Valid()
      reads `incomingChunks, `incomingCommands, `outgoingEvents, `written
    {
      && PiecesOk(incomingChunks) && PiecesOk(incomingCommands)
      && LinesOk(outgoingEvents) && LinesOk(written) && PrinterOk(printer)
    }

    /** `channel_create`: a peer pipe connecting, the three async handles,
        and empty queues. */
    constructor (parse: string -> Option<Json>, env: nat -> Env)
      ensures Valid()
      ensures this.parse == parse && this.env == env && execute == ExecuteCommand && printer == EventLine
      ensures State() == Flags(false, false, true, false, false, true, true, true, false)
      ensures incomingChunks == [] && incomingCommands == [] && outgoingEvents == []
      ensures written == [] && effects == [] && executed == 0
    {
      isActivated := false;
      isConnected := false;
      peerOpen := true;
      reading := false;
      peerShutdownRequested := false;
      emitOpen := true;
      activateOpen := true;
      shutdownOpen := true;
      loopStopped := false;
      incomingChunks := [];
      incomingCommands := [];
      outgoingEvents := [];
      written := [];
      effects := [];
      executed := 0;
      this.parse := parse;
      this.env := env;
      execute := ExecuteCommand;
      printer := EventLine;
    }

    /** `_channel_emit`: queue the event's line while the emit handle exists;
        after shutdown the event is dropped. */
    method Emit(name: string, data: Json)
      requires Valid()
      modifies this
      ensures Valid()
      ensures outgoingEvents == old(outgoingEvents) + (if emitOpen then [printer(name, data)] else [])
      ensures State() == old(State()) && incomingChunks == old(incomingChunks)
      ensures incomingCommands == old(incomingCommands) && written == old(written)
      ensures effects == old(effects) && executed == old(executed)
    {
      if emitOpen {
        outgoingEvents := outgoingEvents + [printer(name, data)];
      }
    }

    method EmitWindowMessage(handle: Handle, message: string)
      requires Valid()
      modifies this
      ensures Valid()
      ensures outgoingEvents == old(outgoingEvents) +
        (if emitOpen then [printer("window_message", JObj([("handle", JNum(handle)), ("message", JStr(message))]))] else [])
      ensures State() == old(State()) && written == old(written) && effects == old(effects)
    {
      Emit("window_message", JObj([("handle", JNum(handle)), ("message", JStr(message))]));
    }

    method EmitWindowCloseIntent(handle: Handle)
      requires Valid()
      modifies this
      ensures Valid()
      ensures outgoingEvents == old(outgoingEvents) +
        (if emitOpen then [printer("window_close_intent", JObj([("handle", JNum(handle))]))] else [])
      ensures State() == old(State()) && written == old(written) && effects == old(effects)
    {
      Emit("window_close_intent", JObj([("handle", JNum(handle))]));
    }

    method EmitWindowClose(handle: Handle, isLastWindow: bool)
      requires Valid()
      modifies this
      ensures Valid()
      ensures outgoingEvents == old(outgoingEvents) +
        (if emitOpen then [printer("window_close", JObj([("handle", JNum(handle)), ("is_last_window", JBool(isLastWindow))]))] else [])
      ensures State() == old(State()) && written == old(written) && effects == old(effects)
    {
      Emit("window_close", JObj([("handle", JNum(handle)), ("is_last_window", JBool(isLastWindow))]));
    }

    /** `app_quit` carries null data (`json{}` is null). */
    method EmitAppQuit()
      requires Valid()
      modifies this
      ensures Valid()
      ensures outgoingEvents == old(outgoingEvents) + (if emitOpen then [printer("app_quit", JNull)] else [])
      ensures State() == old(State()) && written == old(written) && effects == old(effects)
    {
      Emit("app_quit", JNull);
    }

    /** `_peer_execute_command`: make the command's library calls and queue
        its one reply (none for a line that is not a JSON object). */
    method ExecuteCommandLine(line: string)
      requires Valid()
      modifies this
      ensures Valid()
      ensures var r := execute(parse(line), env(old(executed)));
        && executed == old(executed) + 1
        && effects == old(effects) + (if r.Some? then r.value.0 else [])
        && outgoingEvents == old(outgoingEvents) + (if r.Some? && emitOpen then [ReplyLine(printer, r.value.1)] else [])
      ensures State() == old(State()) && incomingChunks == old(incomingChunks)
      ensures incomingCommands == old(incomingCommands) && written == old(written)
    {
      var r := execute(parse(line), env(executed));
      executed := executed + 1;
      if r.Some? {
        effects := effects + r.value.0;
        var event := ReplyEvent(r.value.1);
        Emit(event.0, event.1);
      }
    }

    /** The command half of `_push_queues`: execute every queued command in
        arrival order, then clear the queue. */
    method RunCommands()
      requires Valid()
      modifies this
      ensures Valid()
      ensures var run := Folded(Outcomes(old(incomingCommands), execute, parse, env, old(executed)));
        && incomingCommands == []
        && effects == old(effects) + run.0
        && executed == old(executed) + |old(incomingCommands)|
        && outgoingEvents == old(outgoingEvents) + (if emitOpen then ReplyLines(printer, run.1) else [])
      ensures State() == old(State()) && incomingChunks == old(incomingChunks) && written == old(written)
    {
      var commands := incomingCommands;
      ghost var outs := Outcomes(commands, execute, parse, env, executed);
      ghost var run: (seq<Effect>, seq<Reply>) := ([], []);
      var i := 0;
      while i < |commands|
        invariant 0 <= i <= |commands|
        invariant Valid()
        invariant run == Folded(outs[..i])
        invariant incomingCommands == commands && executed == old(executed) + i
        invariant effects == old(effects) + run.0
        invariant outgoingEvents == old(outgoingEvents) + (if emitOpen then ReplyLines(printer, run.1) else [])
        invariant State() == old(State()) && incomingChunks == old(incomingChunks) && written == old(written)
      {
        ghost var r := outs[i];
        OutcomeAt(commands, execute, parse, env, old(executed), i);
        FoldedSnoc(outs, i);
        ExecuteCommandLine(commands[i]);
        if r.Some? {
          AppendAssoc(old(effects), run.0, r.value.0);
          ReplyLinesSnoc(printer, run.1, r);
          AppendAssoc(old(outgoingEvents), ReplyLines(printer, run.1), if emitOpen then [ReplyLine(printer, r.value.1)] else []);
          run := (run.0 + r.value.0, run.1 + [r.value.1]);
        }
        i := i + 1;
      }
      assert outs[..|outs|] == outs;
      incomingCommands := [];
    }

    /** The event half of `_push_queues`: write every queued event in order
        if the peer exists, then clear the queue even if it does not. */
    method WriteEvents()
      requires Valid()
      modifies this
      ensures Valid()
      ensures outgoingEvents == [] && written == old(written) + (if peerOpen then old(outgoingEvents) else [])
      ensures State() == old(State()) && incomingChunks == old(incomingChunks)
      ensures incomingCommands == old(incomingCommands) && effects == old(effects) && executed == old(executed)
    {
      var events := outgoingEvents;
      var k := 0;
      while k < |events|
        invariant 0 <= k <= |events|
        invariant Valid()
        invariant outgoingEvents == events
        invariant written == old(written) + (if peerOpen then events[..k] else [])
        invariant State() == old(State()) && incomingChunks == old(incomingChunks)
        invariant incomingCommands == old(incomingCommands) && effects == old(effects) && executed == old(executed)
      {
        if peerOpen {
          assert events[..k + 1] == events[..k] + [events[k]];
          written := written + [events[k]];
        }
        k := k + 1;
      }
      assert events[..|events|] == events;
      outgoingEvents := [];
    }

    /** `_push_queues`: when activated, execute every queued command in
        arrival order and clear the queue (otherwise keep it); then, when
        connected, write every queued event in order if the peer exists and
        clear the event queue even if it does not. The replies of the
        commands just executed are among the events written. */
    method PushQueues()
      requires Valid()
      modifies this
      ensures Valid()
      ensures var run := Folded(Outcomes(old(incomingCommands), execute, parse, env, old(executed)));
        if old(isActivated) then
          && incomingCommands == []
          && effects == old(effects) + run.0
          && executed == old(executed) + |old(incomingCommands)|
        else
          && incomingCommands == old(incomingCommands)
          && effects == old(effects) && executed == old(executed)
      ensures var run := Folded(Outcomes(old(incomingCommands), execute, parse, env, old(executed)));
        var queued := old(outgoingEvents) + (if isActivated && emitOpen then ReplyLines(printer, run.1) else []);
        if isConnected then
          outgoingEvents == [] && written == old(written) + (if peerOpen then queued else [])
        else
          outgoingEvents == queued && written == old(written)
      ensures State() == old(State()) && incomingChunks == old(incomingChunks)
    {
      if isActivated {
        RunCommands();
      }
      if isConnected {
        WriteEvents();
      }
    }

    /** The framing part of `_peer_on_data`: scan the chunk for line feeds;
        at each one, the held chunks and the bytes before it form a command
        (unless that is empty), the held chunks are dropped and the chunk is
        shifted past the line feed; what is left of the chunk is held. The
        commands queued and the bytes held are exactly what `Scan` reads
        from the held bytes followed by the chunk. */
    method ReceiveChunk(chunk: string)
      requires Valid()
      modifies this
      ensures Valid()
      ensures var s := Scan(Concat(old(incomingChunks)), chunk);
        incomingCommands == old(incomingCommands) + s.0 && Concat(incomingChunks) == s.1
      ensures State() == old(State()) && outgoingEvents == old(outgoingEvents)
      ensures written == old(written) && effects == old(effects) && executed == old(executed)
    {
      incomingCommands, incomingChunks := FrameChunk(incomingCommands, incomingChunks, chunk);
    }

    /** `_peer_on_data`: frame the chunk, then push the queues. */
    method OnData(chunk: string)
      requires Valid()
      modifies this
      ensures Valid()
      ensures Concat(incomingChunks) == Scan(Concat(old(incomingChunks)), chunk).1
      ensures var framed := old(incomingCommands) + Scan(Concat(old(incomingChunks)), chunk).0;
        var run := Folded(Outcomes(framed, execute, parse, env, old(executed)));
        if isActivated then
          && incomingCommands == []
          && effects == old(effects) + run.0
          && executed == old(executed) + |framed|
        else
          && incomingCommands == framed
          && effects == old(effects) && executed == old(executed)
      ensures var framed := old(incomingCommands) + Scan(Concat(old(incomingChunks)), chunk).0;
        var run := Folded(Outcomes(framed, execute, parse, env, old(executed)));
        var queued := old(outgoingEvents) + (if isActivated && emitOpen then ReplyLines(printer, run.1) else []);
        if isConnected then
          outgoingEvents == [] && written == old(written) + (if peerOpen then queued else [])
        else
          outgoingEvents == queued && written == old(written)
      ensures State() == old(State())
    {
      ReceiveChunk(chunk);
      PushQueues();
    }

    /** The activation handler: mark activated and push; a peer that is
        already gone means the controller left, so the app quits. Every
        close of the peer is followed by its reset, so a closing peer is a
        missing one here. */
    method Activate()
      requires Valid()
      modifies this
      ensures Valid()
      ensures State() == old(State()).(activated := true)
      ensures incomingChunks == old(incomingChunks)
      ensures incomingCommands == [] && executed == old(executed) + |old(incomingCommands)|
      ensures effects == old(effects) + Folded(Outcomes(old(incomingCommands), execute, parse, env, old(executed))).0 +
        (if !peerOpen then [QuitApp] else [])
      ensures var run := Folded(Outcomes(old(incomingCommands), execute, parse, env, old(executed)));
        var queued := old(outgoingEvents) + (if emitOpen then ReplyLines(printer, run.1) else []);
        if isConnected then
          outgoingEvents == [] && written == old(written) + (if peerOpen then queued else [])
        else
          outgoingEvents == queued && written == old(written)
    {
      ghost var run := Folded(Outcomes(incomingCommands, execute, parse, env, executed));
      isActivated := true;
      PushQueues();
      assert effects == old(effects) + run.0;
      var quit: seq<Effect> := if !peerOpen then [QuitApp] else [];
      effects := effects + quit;
    }

    /** `channel_activate`: the activation is signalled only while the
        activate handle exists, so after shutdown it changes nothing. */
    method ChannelActivate()
      requires Valid()
      modifies this
      ensures Valid()
      ensures !old(activateOpen) ==>
        && State() == old(State()) && incomingChunks == old(incomingChunks)
        && incomingCommands == old(incomingCommands) && outgoingEvents == old(outgoingEvents)
        && written == old(written) && effects == old(effects) && executed == old(executed)
      ensures old(activateOpen) ==>
        && State() == old(State()).(activated := true) && incomingChunks == old(incomingChunks)
        && incomingCommands == [] && executed == old(executed) + |old(incomingCommands)|
        && effects == old(effects) + Folded(Outcomes(old(incomingCommands), execute, parse, env, old(executed))).0 +
           (if !peerOpen then [QuitApp] else [])
        && (var run := Folded(Outcomes(old(incomingCommands), execute, parse, env, old(executed)));
            var queued := old(outgoingEvents) + (if emitOpen then ReplyLines(printer, run.1) else []);
            if isConnected then
              outgoingEvents == [] && written == old(written) + (if peerOpen then queued else [])
            else
              outgoingEvents == queued && written == old(written))
    {
      if activateOpen {
        Activate();
      }
    }

    /** `channel_shutdown`: the shutdown is signalled only while the
        shutdown handle exists, so a second shutdown changes nothing. */
    method ChannelShutdown()
      requires Valid()
      modifies this
      ensures Valid()
      ensures !old(shutdownOpen) ==>
        && State() == old(State()) && incomingChunks == old(incomingChunks)
        && incomingCommands == old(incomingCommands) && outgoingEvents == old(outgoingEvents)
        && written == old(written) && effects == old(effects) && executed == old(executed)
      ensures old(shutdownOpen) ==>
        && State() == Flags(false, false, old(peerOpen), old(reading), old(peerShutdownRequested) || old(peerOpen),
                            false, false, false, true)
        && incomingChunks == old(incomingChunks) && incomingCommands == old(incomingCommands)
        && outgoingEvents == old(outgoingEvents) && written == old(written)
        && effects == old(effects) && executed == old(executed)
    {
      if shutdownOpen {
        Shutdown();
      }
    }

    /** The shutdown handler: deactivate, disconnect, shut the peer down,
        close the three async handles (so later emits are dropped) and stop
        the loop. */
    method Shutdown()
      requires Valid()
      modifies this
      ensures Valid()
      ensures State() == old(State()).(activated := false, connected := false,
                                       peerShutdown := old(peerShutdownRequested) || old(peerOpen),
                                       emitOpen := false, activateOpen := false, shutdownOpen := false,
                                       loopStopped := true)
      ensures incomingCommands == old(incomingCommands) && outgoingEvents == old(outgoingEvents)
      ensures incomingChunks == old(incomingChunks) && executed == old(executed)
      ensures written == old(written) && effects == old(effects)
    {
      isActivated, isConnected := false, false;
      peerShutdownRequested := peerShutdownRequested || peerOpen;
      CloseHandles();
    }

    /** The locked part of the shutdown handler: close the three async
        handles and stop the loop. */
    method CloseHandles()
      requires Valid()
      modifies this
      ensures Valid()
      ensures State() == old(State()).(emitOpen := false, activateOpen := false, shutdownOpen := false,
                                       loopStopped := true)
      ensures incomingCommands == old(incomingCommands) && outgoingEvents == old(outgoingEvents)
      ensures incomingChunks == old(incomingChunks) && executed == old(executed)
      ensures written == old(written) && effects == old(effects)
    {
      emitOpen, activateOpen, shutdownOpen := false, false, false;
      loopStopped := true;
    }

    /** The peer connected: start reading and push the queues. */
    method OnConnect()
      requires Valid()
      modifies this
      ensures Valid()
      ensures State() == old(State()).(connected := true, reading := old(reading) || old(peerOpen))
      ensures incomingChunks == old(incomingChunks)
      ensures var run := Folded(Outcomes(old(incomingCommands), execute, parse, env, old(executed)));
        if isActivated then
          && incomingCommands == []
          && effects == old(effects) + run.0
          && executed == old(executed) + |old(incomingCommands)|
        else
          && incomingCommands == old(incomingCommands)
          && effects == old(effects) && executed == old(executed)
      ensures var run := Folded(Outcomes(old(incomingCommands), execute, parse, env, old(executed)));
        var queued := old(outgoingEvents) + (if isActivated && emitOpen then ReplyLines(printer, run.1) else []);
        outgoingEvents == [] && written == old(written) + (if peerOpen then queued else [])
    {
      isConnected := true;
      if peerOpen {
        reading := true;
      }
      PushQueues();
    }

    /** The peer's shutdown completed: disconnect, close and reset the peer. */
    method OnShutdown()
      requires Valid()
      modifies this
      ensures Valid()
      ensures State() == old(State()).(connected := false, peerOpen := false)
      ensures effects == old(effects) && written == old(written) && executed == old(executed)
      ensures outgoingEvents == old(outgoingEvents) && incomingCommands == old(incomingCommands)
      ensures incomingChunks == old(incomingChunks)
    {
      isConnected := false;
      peerOpen := false;
    }

    /** The peer ended its stream: disconnect and shut the peer down. */
    method OnEnd()
      requires Valid()
      modifies this
      ensures Valid()
      ensures State() == old(State()).(connected := false, peerShutdown := old(peerShutdownRequested) || old(peerOpen))
      ensures effects == old(effects) && written == old(written) && executed == old(executed)
      ensures outgoingEvents == old(outgoingEvents) && incomingCommands == old(incomingCommands)
      ensures incomingChunks == old(incomingChunks)
    {
      isConnected := false;
      if peerOpen {
        peerShutdownRequested := true;
      }
    }

    /** The peer pipe closed: disconnect; once activated, the app quits. */
    method OnClose()
      requires Valid()
      modifies this
      ensures Valid()
      ensures State() == old(State()).(connected := false)
      ensures effects == old(effects) + (if isActivated then [QuitApp] else [])
      ensures written == old(written) && outgoingEvents == old(outgoingEvents) && executed == old(executed)
      ensures incomingCommands == old(incomingCommands) && incomingChunks == old(incomingChunks)
    {
      var quit: seq<Effect> := if isActivated then [QuitApp] else [];
      isConnected := false;
      effects := effects + quit;
    }

    /** A peer error: disconnect, close and reset the peer; once activated,
        the app quits. */
    method OnError()
      requires Valid()
      modifies this
      ensures Valid()
      ensures State() == old(State()).(connected := false, peerOpen := false)
      ensures effects == old(effects) + (if isActivated then [QuitApp] else [])
      ensures written == old(written) && outgoingEvents == old(outgoingEvents) && executed == old(executed)
      ensures incomingCommands == old(incomingCommands) && incomingChunks == old(incomingChunks)
    {
      var quit: seq<Effect> := if isActivated then [QuitApp] else [];
      isConnected, peerOpen := false, false;
      effects := effects + quit;
    }
  }

  /** The scan of `ReceiveChunk` on the queues as values: the commands
      completed and the chunks held afterwards. */
  method FrameChunk(commands: seq<string>, chunks: seq<string>, chunk: string)
    returns (commands': seq<string>, chunks': seq<string>)
    requires PiecesOk(commands) && PiecesOk(chunks)
    ensures PiecesOk(commands') && PiecesOk(chunks')
    ensures var s := Scan(Concat(chunks), chunk);
      commands' == commands + s.0 && Concat(chunks') == s.1
  {
    commands', chunks' := commands, chunks;
    ghost var goal := Scan(Concat(chunks), chunk);
    var cur := chunk;
    var i := 0;
    while i < |cur|
      invariant 0 <= i <= |cur|
      invariant '\n' !in cur[..i]
      invariant PiecesOk(commands') && PiecesOk(chunks')
      invariant commands' + Scan(Concat(chunks'), cur).0 == commands + goal.0
      invariant Scan(Concat(chunks'), cur).1 == goal.1
      decreases |cur| - i
    {
      if cur[i] == '\n' {
        var held := Concat(chunks');
        LineFeedStep(commands', chunks', cur, i);
        if |held| + i > 0 {
          commands' := commands' + [held + cur[..i]];
          chunks' := [];
        }
        cur := cur[i + 1..];
        i := 0;
      } else {
        assert cur[..i + 1] == cur[..i] + [cur[i]];
        i := i + 1;
      }
    }
    assert cur[..i] == cur;
    ScanWithoutNewline(Concat(chunks'), cur);
    if |cur| > 0 {
      ConcatSnoc(chunks', cur);
      chunks' := chunks' + [cur];
    }
  }

  /** The step of the receive loop at a line feed at index `i` of the
      chunk `cur`: queuing the held bytes and the bytes before the line feed
      (when not empty) and continuing after the line feed with nothing held
      reads the same lines and leaves the same rest as scanning on. */
  lemma LineFeedStep(commands: seq<string>, chunks: seq<string>, cur: string, i: nat)
    requires i < |cur| && cur[i] == '\n' && '\n' !in cur[..i]
    requires forall k :: 0 <= k < |chunks| ==> '\n' !in chunks[k]
    ensures var held := Concat(chunks);
      var rest := Scan("", cur[i + 1..]);
      && (if |held| + i > 0 then commands + [held + cur[..i]] else commands) + rest.0 ==
         commands + Scan(held, cur).0
      && rest.1 == Scan(held, cur).1
      && '\n' !in held + cur[..i]
      && (|held| + i == 0 ==> held == "")
  {
    var held := Concat(chunks);
    var rest := Scan("", cur[i + 1..]);
    var first: seq<string> := if |held| + i > 0 then [held + cur[..i]] else [];
    ScanAtNewline(held, cur, i);
    assert Scan(held, cur).0 == first + rest.0;
    AppendAssoc(commands, first, rest.0);
    assert (if |held| + i > 0 then commands + [held + cur[..i]] else commands) == commands + first;
    ConcatOneLine(chunks);
  }

  lemma AppendAssoc<T>(a: seq<T>, b: seq<T>, c: seq<T>)
    ensures a + b + c == a + (b + c)
  {
  }

  /** One more outcome folded in. */
  lemma FoldedSnoc(outs: seq<Outcome>, i: nat)
    requires i < |outs|
    ensures var prev := Folded(outs[..i]);
      Folded(outs[..i + 1]) ==
        if outs[i].None? then prev else (prev.0 + outs[i].value.0, prev.1 + [outs[i].value.1])
  {
    assert outs[..i + 1][..i] == outs[..i];
  }

  lemma ReplyLinesSnoc(printer: Printer, rs: seq<Reply>, r: Outcome)
    ensures ReplyLines(printer, if r.Some? then rs + [r.value.1] else rs) ==
      ReplyLines(printer, rs) + (if r.Some? then [ReplyLine(printer, r.value.1)] else [])
  {
    if r.Some? {
      assert (rs + [r.value.1])[..|rs|] == rs;
    }
  }
}
