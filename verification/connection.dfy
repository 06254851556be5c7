/**
 * Connection: one bidirectional byte channel over an input/output stream
 * pair. It queues outbound bytes and drains them as the output stream
 * accepts them, merges each burst of inbound reads into one delivery, and
 * has an open/closed life cycle. Delegate calls are recorded in `events`.
 */
module Connections {
  import opened Wrappers
  import opened Platform
  import opened Streams

  // ----- connection names -----

  /** The decimal digit for `d`. */
  function DigitChar(d: nat): (c: char)
    requires d < 10
    ensures '0' <= c <= '9' && c as int - '0' as int == d
  {
    ('0' as int + d) as char
  }

  predicate IsDigits(s: string)
  {
    forall i :: 0 <= i < |s| ==> '0' <= s[i] <= '9'
  }

  /** The decimal rendering of `n`, as string interpolation writes an Int. */
  function Decimal(n: nat): (s: string)
    ensures |s| >= 1 && IsDigits(s)
    decreases n
  {
    if n < 10 then [DigitChar(n)] else Decimal(n / 10) + [DigitChar(n % 10)]
  }

  /** The number a string of decimal digits denotes. */
  function DecimalValue(s: string): nat
    requires IsDigits(s)
  {
    if s == [] then 0
    else 10 * DecimalValue(s[..|s| - 1]) + (s[|s| - 1] as int - '0' as int)
  }

  /** Reading a rendered number gives the number back. */
  lemma {:induction false} DecimalRoundTrip(n: nat)
    ensures DecimalValue(Decimal(n)) == n
    decreases n
  {
    var s := Decimal(n);
    if n >= 10 {
      assert s[..|s| - 1] == Decimal(n / 10);
      DecimalRoundTrip(n / 10);
    }
  }

  /** `"Connection #\(connectionId)"`: the fixed prefix followed by the decimal digits of `id`. */
  function ConnectionName(id: nat): (r: string)
    ensures |r| > |"Connection #"| && r[..|"Connection #"|] == "Connection #"
    ensures IsDigits(r[|"Connection #"|..]) && DecimalValue(r[|"Connection #"|..]) == id
  {
    DecimalRoundTrip(id);
    assert ("Connection #" + Decimal(id))[|"Connection #"|..] == Decimal(id);
    "Connection #" + Decimal(id)
  }

  /** Different counter values give different names. */
  lemma ConnectionNameInjective(m: nat, n: nat)
    requires ConnectionName(m) == ConnectionName(n)
    ensures m == n
  {
  }

  /** The process-wide `connectionId` counter behind `getConnectionNewName`. */
  class ConnectionCounter {
    var connectionId: nat

    constructor ()
      ensures connectionId == 0
    {
      connectionId := 0;
    }

    /** Increments the counter and names a connection after the new value. */
    method NewName() returns (name: string)
      modifies this
      ensures connectionId == old(connectionId) + 1
      ensures name == ConnectionName(connectionId)
    {
      connectionId := connectionId + 1;
      name := ConnectionName(connectionId);
    }
  }

  // ----- connections -----

  /** A call on the connection's delegate. */
  datatype ConnectionEvent =
    | DidReceiveData(data: seq<Byte>)
      /** `whileOpen` is `isOpen` as the delegate sees it during the call. */
    | WillCloseWithError(error: Option<Error>, whileOpen: bool)

  /** `Stream.Event`, as a stream reports it to its delegate. */
  datatype StreamEvent =
    | NoEvent
    | OpenCompleted
    | HasBytesAvailable
    | HasSpaceAvailable
    | EndEncountered
    | ErrorOccurred

  class Connection {
    const name: string
    const input: InputStream
    const output: OutputStream
    const inputBufferCapacity: nat
    const outputBufferCapacity: nat
    /** Whether the read and write scratch buffers are allocated. */
    var hasInputBuffer: bool
    var hasOutputBuffer: bool
    /** Outbound bytes not yet accepted by the output stream, oldest first. */
    var outputData: seq<Byte>
    var isOpen: bool
    var events: seq<ConnectionEvent>
    /** The reads the last input drain made, in order. */
    ghost var lastReads: seq<seq<Byte>>

    /**
     * The buffers exist exactly while the connection is open, an open
     * connection is its streams' delegate, a stream is open only while the
     * connection is, and the output stream keeps its environment assumption.
     */
    ghost predicate Valid()
      reads this, input, output
    {
      && inputBufferCapacity > 0
      && hasInputBuffer == isOpen && hasOutputBuffer == isOpen
      && (isOpen ==> input.delegate == this && output.delegate == this)
      && (input.status == Opened ==> isOpen)
      && (output.status == Opened ==> isOpen)
      && output.Valid()
    }

    constructor (counter: ConnectionCounter, inputStream: InputStream, outputStream: OutputStream,
                 inputBufferCapacity: nat := 1024, outputBufferCapacity: nat := 1024)
      requires inputBufferCapacity > 0
      requires inputStream.status != Opened && outputStream.status != Opened && outputStream.Valid()
      modifies counter
      ensures Valid()
      ensures counter.connectionId == old(counter.connectionId) + 1
      ensures name == ConnectionName(counter.connectionId)
      ensures input == inputStream && output == outputStream
      ensures this.inputBufferCapacity == inputBufferCapacity
      ensures this.outputBufferCapacity == outputBufferCapacity
      ensures !isOpen && outputData == [] && events == [] && lastReads == []
    {
      var newName := counter.NewName();
      name := newName;
      input := inputStream;
      output := outputStream;
      this.inputBufferCapacity := inputBufferCapacity;
      this.outputBufferCapacity := outputBufferCapacity;
      hasInputBuffer := false;
      hasOutputBuffer := false;
      outputData := [];
      isOpen := false;
      events := [];
      lastReads := [];
    }

    /** Both streams are closed and detached; nothing else about them changed. */
    twostate predicate StreamsClosed()
      reads this, input, output
    {
      && input.status == Closed && input.delegate == null
      && input.pending == old(input.pending) && input.streamError == old(input.streamError)
      && output.status == Closed && output.delegate == null && !output.hasSpaceAvailable
    }

    /**
     * What `close()` leaves behind in the connection itself: not open, no
     * notification, the queue kept, and the buffers of an open connection
     * released.
     */
    twostate predicate ClosedSilently()
      reads this
    {
      && !isOpen && events == old(events) && outputData == old(outputData)
      && (old(isOpen) ==> !hasInputBuffer && !hasOutputBuffer)
    }

    /**
     * Progress of closing a set of connections one by one: this connection
     * is either still untouched or already closed.
     */
    twostate predicate ClosingProgress(pending: bool)
      reads this
    {
      if pending
      then isOpen == old(isOpen) && events == old(events) && outputData == old(outputData)
      else ClosedSilently()
    }

    /** The effect of `closeWithError(error, notifiy: notify)`. */
    twostate predicate ClosedWithError(new error: Option<Error>, notify: bool)
      reads this, input, output
    {
      if !old(isOpen) then unchanged(this, input, output)
      else
        && !isOpen && !hasInputBuffer && !hasOutputBuffer
        && events == old(events) + (if notify then [WillCloseWithError(error, true)] else [])
        && outputData == old(outputData) && lastReads == old(lastReads)
        && StreamsClosed()
        && output.written == old(output.written) && output.streamError == old(output.streamError)
        && output.failures == old(output.failures)
    }

    /** The effect of draining the input stream into one delivery. */
    twostate predicate DrainedInput()
      reads this, input, output
    {
      if !old(hasInputBuffer) then unchanged(this, input, output)
      else
        var readable := old(input.status) == Opened;
        && Flatten(lastReads) == (if readable then Flatten(old(input.pending)) else [])
        && (forall i :: 0 <= i < |lastReads| ==> |lastReads[i]| <= inputBufferCapacity)
        && events == old(events) + [DidReceiveData(Flatten(lastReads))]
        && input.pending == (if readable then [] else old(input.pending))
        && input.status == old(input.status) && input.delegate == old(input.delegate)
        && input.streamError == old(input.streamError)
        && outputData == old(outputData) && isOpen == old(isOpen)
        && hasInputBuffer == old(hasInputBuffer) && hasOutputBuffer == old(hasOutputBuffer)
        && unchanged(output)
    }

    /**
     * The effect of draining `queue`, the pending output: the bytes the
     * stream accepted, followed by what is still queued, are `queue`; either
     * the connection stayed as it was, or a write failed and it was closed
     * with a notification carrying the output stream's error. It closes
     * exactly when one write failed, and at most one write fails.
     */
    twostate predicate DrainedOutput(queue: seq<Byte>)
      reads this, input, output
    {
      var before := old(output.written);
      && |before| <= |output.written| && output.written[..|before|] == before
      && output.written[|before|..] + outputData == queue
      && lastReads == old(lastReads)
      && output.failures == old(output.failures) + (if isOpen == old(isOpen) then 0 else 1)
      && (|| (&& isOpen == old(isOpen) && events == old(events)
              && hasInputBuffer == old(hasInputBuffer) && hasOutputBuffer == old(hasOutputBuffer)
              && unchanged(input)
              && output.status == old(output.status) && output.delegate == old(output.delegate)
              && output.streamError == old(output.streamError))
          || (&& old(isOpen) && !isOpen && !hasInputBuffer && !hasOutputBuffer
              && events == old(events) + [WillCloseWithError(output.streamError, true)]
              && StreamsClosed()))
      && (if old(output.hasSpaceAvailable)
          then !output.hasSpaceAvailable || outputData == []
          else && output.written == before && events == old(events) && unchanged(input)
               && output.hasSpaceAvailable == old(output.hasSpaceAvailable)
               && output.streamError == old(output.streamError))
    }

    /** Allocates the buffers, subscribes to and opens both streams; no-op when open. */
    method Open()
      requires Valid()
      modifies this, input, output
      ensures Valid()
      ensures old(isOpen) ==> unchanged(this, input, output)
      ensures !old(isOpen) ==> && isOpen && hasInputBuffer && hasOutputBuffer
                               && input.delegate == this && output.delegate == this
                               && input.status == AfterOpen(old(input.status))
                               && output.status == AfterOpen(old(output.status))
      ensures outputData == old(outputData) && events == old(events) && lastReads == old(lastReads)
      ensures input.pending == old(input.pending) && input.streamError == old(input.streamError)
      ensures output.written == old(output.written) && output.streamError == old(output.streamError)
      ensures output.hasSpaceAvailable == old(output.hasSpaceAvailable)
      ensures output.failures == old(output.failures)
    {
      if isOpen {
        return;
      }
      hasInputBuffer := true;
      hasOutputBuffer := true;
      input.delegate := this;
      output.delegate := this;
      input.Open();
      output.Open();
      isOpen := true;
    }

    /** Silent teardown: `closeWithError(nil, notifiy: false)`. */
    method Close()
      modifies this, input, output
      ensures ClosedWithError(None, false)
      ensures old(Valid()) ==> Valid()
    {
      CloseWithError(None, false);
    }

    /**
     * Tears down an open connection, first telling the delegate when
     * `notify` holds; no-op when not open. The output queue is kept.
     */
    method CloseWithError(error: Option<Error>, notify: bool := true)
      modifies this, input, output
      ensures ClosedWithError(error, notify)
      ensures old(Valid()) ==> Valid()
    {
      if !isOpen {
        return;
      }
      if notify {
        events := events + [WillCloseWithError(error, isOpen)];
      }
      input.delegate := null;
      output.delegate := null;
      input.Close();
      output.Close();
      hasInputBuffer := false;
      hasOutputBuffer := false;
      isOpen := false;
    }

    /** Reads while the input stream has bytes and delivers them all at once. */
    method ProcessInput()
      requires Valid()
      modifies this, input
      ensures Valid()
      ensures DrainedInput()
    {
      if !hasInputBuffer {
        return;
      }
      var data: seq<Byte> := [];
      ghost var chunks: seq<seq<Byte>> := [];
      while input.HasBytesAvailable()
        modifies input`pending
        invariant data == Flatten(chunks)
        invariant data + Flatten(input.pending) == Flatten(old(input.pending))
        invariant forall i :: 0 <= i < |chunks| ==> |chunks[i]| <= inputBufferCapacity
        invariant input.status != Opened ==> chunks == [] && input.pending == old(input.pending)
        decreases Backlog(input.pending)
      {
        var chunk := input.Read(inputBufferCapacity);
        FlattenAppend(chunks, chunk);
        chunks := chunks + [chunk];
        data := data + chunk;
      }
      lastReads := chunks;
      ProcessInputData(data);
    }

    /** Hands a payload to the delegate. */
    method ProcessInputData(data: seq<Byte>)
      modifies this`events
      ensures events == old(events) + [DidReceiveData(data)]
    {
      events := events + [DidReceiveData(data)];
    }

    /**
     * Queues `data` behind the pending bytes and drains. The bytes are
     * queued whether or not the connection is open; on a closed one they
     * are never written.
     */
    method SendData(data: seq<Byte>)
      requires Valid()
      modifies this, input, output
      ensures Valid()
      ensures DrainedOutput(old(outputData) + data)
      ensures !old(isOpen) ==> output.written == old(output.written) && outputData == old(outputData) + data
    {
      outputData := outputData + data;
      ProcessOutput();
    }

    /**
     * Writes queued bytes while the stream reports space, trimming what each
     * write accepted from the head of the queue; a failed write closes the
     * connection with the stream's error.
     */
    method ProcessOutput()
      requires Valid()
      modifies this, input, output
      ensures Valid()
      ensures DrainedOutput(old(outputData))
    {
      if !output.hasSpaceAvailable {
        return;
      }
      ghost var sent: seq<Byte> := [];
      while output.hasSpaceAvailable && outputData != []
        invariant Valid()
        invariant output.written == old(output.written) + sent
        invariant sent + outputData == old(outputData)
        invariant lastReads == old(lastReads)
        invariant output.failures == old(output.failures) + (if isOpen then 0 else 1)
        invariant isOpen ==> && events == old(events) && unchanged(input)
                             && output.status == Opened && output.delegate == old(output.delegate)
                             && output.streamError == old(output.streamError)
        invariant !isOpen ==> && events == old(events) + [WillCloseWithError(output.streamError, true)]
                              && StreamsClosed()
        decreases |outputData| + (if output.hasSpaceAvailable then 1 else 0)
      {
        var n := output.Write(outputData);
        if n <= 0 {
          CloseWithError(output.streamError);
        } else {
          sent := sent + outputData[..n];
          outputData := outputData[n..];
        }
      }
      assert output.written[|old(output.written)|..] == sent;
    }

    /**
     * `stream(_:handle:)`: events from other streams are ignored; available
     * bytes are drained only from the input stream and available space is
     * used only on the output stream; end of stream closes without an
     * error and a stream error closes with that stream's error.
     */
    method HandleEvent(source: object, event: StreamEvent)
      requires Valid()
      modifies this, input, output
      ensures Valid()
      ensures source != input && source != output ==> unchanged(this, input, output)
      ensures event == NoEvent || event == OpenCompleted ==> unchanged(this, input, output)
      ensures event == HasBytesAvailable && source == input ==> DrainedInput()
      ensures event == HasBytesAvailable && source == output ==> unchanged(this, input, output)
      ensures event == HasSpaceAvailable && source == output ==> DrainedOutput(old(outputData))
      ensures event == HasSpaceAvailable && source == input ==> unchanged(this, input, output)
      ensures event == EndEncountered && (source == input || source == output) ==> ClosedWithError(None, true)
      ensures event == ErrorOccurred && source == input ==> ClosedWithError(input.streamError, true)
      ensures event == ErrorOccurred && source == output ==> ClosedWithError(output.streamError, true)
    {
      if source != input && source != output {
        return;
      }
      match event
      case NoEvent =>
      case OpenCompleted =>
      case HasBytesAvailable =>
        if source == input {
          ProcessInput();
        }
      case HasSpaceAvailable =>
        if source == output {
          ProcessOutput();
        }
      case EndEncountered =>
        CloseWithError(None);
      case ErrorOccurred =>
        CloseWithError(if source == input then input.streamError else output.streamError);
    }
  }

  /** A stream that grew from `w0` to `w1` and then to `w2` grew from `w0` to `w2`. */
  lemma ExtendsTrans(w0: seq<Byte>, w1: seq<Byte>, w2: seq<Byte>)
    requires |w0| <= |w1| && w1[..|w0|] == w0
    requires |w1| <= |w2| && w2[..|w1|] == w1
    ensures |w0| <= |w2| && w2[..|w0|] == w0
    ensures w2[|w0|..] == w1[|w0|..] + w2[|w1|..]
  {
    assert w2[..|w0|] == w2[..|w1|][..|w0|];
    assert w2[|w0|..] == w2[..|w1|][|w0|..] + w2[|w1|..];
  }

  /**
   * One `sendData` followed by a space-available event on the output
   * stream: the bytes accepted, followed by the queue, are the earlier
   * queue and then `data`; the connection closed exactly when a write
   * failed, and it did not reopen.
   */
  method SendThenDrain(c: Connection, data: seq<Byte>)
    requires c.Valid()
    modifies c, c.input, c.output
    ensures c.Valid()
    ensures |old(c.output.written)| <= |c.output.written|
    ensures c.output.written[..|old(c.output.written)|] == old(c.output.written)
    ensures c.output.written[|old(c.output.written)|..] + c.outputData == old(c.outputData) + data
    ensures c.isOpen ==> old(c.isOpen)
    ensures c.output.failures == old(c.output.failures) + (if c.isOpen == old(c.isOpen) then 0 else 1)
  {
    ghost var w1, q1 := c.output.written, c.outputData;
    c.SendData(data);
    ghost var w2 := c.output.written;
    c.HandleEvent(c.output, HasSpaceAvailable);
    ExtendsTrans(w1, w2, c.output.written);
    assert c.output.written[|w1|..] + c.outputData == w2[|w1|..] + (c.output.written[|w2|..] + c.outputData);
  }

  /**
   * Sends keep their call order: after any sequence of `sendData` calls,
   * each followed by a space-available event on the output stream, the
   * bytes the stream accepted, followed by what is still queued, are the
   * earlier queue and then every payload in the order it was sent, however
   * the stream split the writes. The connection closed during the sends
   * exactly when one write failed.
   */
  method SendsKeepCallOrder(c: Connection, sends: seq<seq<Byte>>)
    requires c.Valid()
    modifies c, c.input, c.output
    ensures c.Valid()
    ensures |old(c.output.written)| <= |c.output.written|
    ensures c.output.written[..|old(c.output.written)|] == old(c.output.written)
    ensures c.output.written[|old(c.output.written)|..] + c.outputData == old(c.outputData) + Flatten(sends)
    ensures c.isOpen ==> old(c.isOpen)
    ensures c.output.failures == old(c.output.failures) + (if c.isOpen == old(c.isOpen) then 0 else 1)
  {
    ghost var w0, q0 := c.output.written, c.outputData;
    ghost var f0, open0 := c.output.failures, c.isOpen;
    var i := 0;
    while i < |sends|
      invariant 0 <= i <= |sends|
      invariant c.Valid()
      invariant |w0| <= |c.output.written| && c.output.written[..|w0|] == w0
      invariant c.output.written[|w0|..] + c.outputData == q0 + Flatten(sends[..i])
      invariant c.isOpen ==> open0
      invariant c.output.failures == f0 + (if c.isOpen == open0 then 0 else 1)
    {
      ghost var w1, q1 := c.output.written, c.outputData;
      SendThenDrain(c, sends[i]);
      ExtendsTrans(w0, w1, c.output.written);
      assert sends[..i + 1] == sends[..i] + [sends[i]];
      FlattenAppend(sends[..i], sends[i]);
      calc {
        c.output.written[|w0|..] + c.outputData;
        w1[|w0|..] + (c.output.written[|w1|..] + c.outputData);
        w1[|w0|..] + (q1 + sends[i]);
        (w1[|w0|..] + q1) + sends[i];
      }
      i := i + 1;
    }
    assert sends[..i] == sends;
  }
}
