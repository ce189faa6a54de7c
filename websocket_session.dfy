/** One websocket session of the local webserver: outgoing messages wait in
    a queue and are written one at a time, the next write starting when the
    previous one completes; incoming messages are read one after the other
    and passed to the webserver context's message handler while the context
    is alive. The socket, the asynchronous completions and the UTF-8/UTF-16
    conversions are outside the model: a write that starts is recorded in
    `written`, its completion is a call of `OnWrite`, and a completed read
    is a call of `OnRead` with its result. */
module WebsocketSession {
  import opened Wrappers

  /** How a read completes. */
  datatype ReadResult = Closed | ReadFailed(message: string) | Received(data: string)

  class Session {
    var writeQueue: seq<string>
    var pendingWrite: bool
    var pendingData: string
    /** The messages handed to the socket, in the order their writes started. */
    var written: seq<string>
    /** How many of those writes have completed. */
    var completed: nat
    var readBuffer: string
    /** A read is outstanding. */
    var reading: bool
    /** The messages passed to the context's message handler. */
    var delivered: seq<string>
    /** The error messages logged. */
    var errors: seq<string>
    /** Every message ever queued for writing. */
    ghost var enqueued: seq<string>

    /** Messages reach the socket in the order they were queued, and at most
        one write is in flight: the pending one, whose data is the last
        message handed to the socket. */
    ghost predicate Valid()
      reads this
    {
      && written + writeQueue == enqueued
      && |written| == completed + (if pendingWrite then 1 else 0)
      && (pendingWrite ==> pendingData == written[|written| - 1])
      && readBuffer == ""
    }

    /** A new session, after a successful handshake: nothing queued, no
        write pending, a read outstanding. */
    constructor ()
      ensures Valid()
      ensures writeQueue == [] && !pendingWrite && written == [] && completed == 0
      ensures reading && delivered == [] && errors == [] && enqueued == []
    {
      writeQueue := [];
      pendingWrite := false;
      pendingData := "";
      written := [];
      completed := 0;
      readBuffer := "";
      reading := true;
      delivered := [];
      errors := [];
      enqueued := [];
    }

    /** `do_write`: when no write is pending and a message is queued, the
        head is popped and its write starts; otherwise nothing happens. */
    method DoWrite()
      requires Valid()
      modifies this
      ensures Valid()
      ensures enqueued == old(enqueued) && completed == old(completed)
      ensures reading == old(reading) && delivered == old(delivered) && errors == old(errors)
      ensures if !old(pendingWrite) && |old(writeQueue)| > 0 then
                && pendingWrite && pendingData == old(writeQueue[0])
                && writeQueue == old(writeQueue[1..]) && written == old(written) + [old(writeQueue[0])]
              else
                pendingWrite == old(pendingWrite) && writeQueue == old(writeQueue) && written == old(written)
    {
      if !pendingWrite && |writeQueue| > 0 {
        pendingWrite := true;
        pendingData := writeQueue[0];
        written := written + [writeQueue[0]];
        writeQueue := writeQueue[1..];
      }
    }

    /** `queue_write`: the message joins the tail of the queue, then a write
        is attempted; it starts with the queue's head, which is the new
        message only when the queue was empty. */
    method QueueWrite(body: string)
      requires Valid()
      modifies this
      ensures Valid()
      ensures enqueued == old(enqueued) + [body] && completed == old(completed)
      ensures reading == old(reading) && delivered == old(delivered) && errors == old(errors)
      ensures var queue := old(writeQueue) + [body];
        if !old(pendingWrite) then
          && pendingWrite && pendingData == queue[0]
          && writeQueue == queue[1..] && written == old(written) + [queue[0]]
        else
          pendingWrite && writeQueue == queue && written == old(written)
    {
      writeQueue := writeQueue + [body];
      enqueued := enqueued + [body];
      DoWrite();
    }

    /** `on_write`: the pending write has completed; the flag is cleared in
        every case, and only a successful write goes on with the next
        message. After a failure the rest stays queued until the next
        `QueueWrite`. */
    method OnWrite(failure: Option<string>)
      requires Valid() && pendingWrite
      modifies this
      ensures Valid()
      ensures enqueued == old(enqueued) && completed == old(completed) + 1
      ensures reading == old(reading) && delivered == old(delivered)
      ensures failure.Some? ==>
        && !pendingWrite && writeQueue == old(writeQueue) && written == old(written)
        && errors == old(errors) + [failure.value]
      ensures failure.None? ==> errors == old(errors)
      ensures failure.None? ==>
        if |old(writeQueue)| > 0 then
          && pendingWrite && pendingData == old(writeQueue[0])
          && writeQueue == old(writeQueue[1..]) && written == old(written) + [old(writeQueue[0])]
        else
          !pendingWrite && writeQueue == old(writeQueue) && written == old(written)
    {
      pendingWrite := false;
      completed := completed + 1;
      if failure.Some? {
        errors := errors + [failure.value];
        return;
      }
      DoWrite();
    }

    /** `on_read`: a closed session or a failed read ends reading (the
        failure is logged); a received message goes to the handler only when
        the context is alive and has one, the buffer is emptied and the next
        read starts. */
    method OnRead(result: ReadResult, contextAlive: bool, hasHandler: bool)
      requires Valid() && reading
      modifies this
      ensures Valid()
      ensures writeQueue == old(writeQueue) && pendingWrite == old(pendingWrite) && written == old(written)
      ensures completed == old(completed) && enqueued == old(enqueued)
      ensures reading <==> result.Received?
      ensures delivered == old(delivered) +
        (if result.Received? && contextAlive && hasHandler then [result.data] else [])
      ensures errors == old(errors) + (if result.ReadFailed? then [result.message] else [])
    {
      match result {
        case Closed =>
          reading := false;
        case ReadFailed(message) =>
          errors := errors + [message];
          reading := false;
        case Received(data) =>
          readBuffer := readBuffer + data;
          assert readBuffer == data;
          if contextAlive && hasHandler {
            delivered := delivered + [readBuffer];
          }
          readBuffer := "";
      }
    }

    /** Once no write is pending and the queue is empty, every message
        queued so far has been handed to the socket, in order. */
    lemma Drained()
      requires Valid() && !pendingWrite && writeQueue == []
      ensures written == enqueued && completed == |enqueued|
    {
    }
  }
}
