/**
 * The two byte streams a Connection owns, reduced to the behaviour the
 * Connection relies on. They stand for Foundation's InputStream and
 * OutputStream; the network behind them is the environment, so what a read
 * returns is fixed by the chunks that have arrived and what a write accepts
 * is chosen nondeterministically.
 */
module Streams {
  import opened Wrappers
  import opened Platform

  /** Life cycle of a Foundation stream; a closed stream cannot be reopened. */
  datatype Status = NotOpen | Opened | Closed

  /** The bytes of a sequence of chunks, in order. */
  function Flatten(chunks: seq<seq<Byte>>): seq<Byte>
  {
    if chunks == [] then [] else chunks[0] + Flatten(chunks[1..])
  }

  /** Flattening distributes over appending one chunk. */
  lemma {:induction false} FlattenAppend(chunks: seq<seq<Byte>>, c: seq<Byte>)
    ensures Flatten(chunks + [c]) == Flatten(chunks) + c
  {
    if chunks != [] {
      assert (chunks + [c])[1..] == chunks[1..] + [c];
      FlattenAppend(chunks[1..], c);
    }
  }

  /** Work left in a sequence of chunks: every byte, plus one per chunk. */
  function Backlog(chunks: seq<seq<Byte>>): nat
  {
    if chunks == [] then 0 else |chunks[0]| + 1 + Backlog(chunks[1..])
  }

  /** The status after `open()`: only a stream that was never opened opens. */
  function AfterOpen(s: Status): Status
  {
    if s == NotOpen then Opened else s
  }

  class InputStream {
    var status: Status
    /** The object the stream reports its events to (`stream.delegate`). */
    var delegate: object?
    /** Data that has arrived and not yet been read, as the OS delivered it. */
    var pending: seq<seq<Byte>>
    var streamError: Option<Error>

    constructor (arrived: seq<seq<Byte>>)
      ensures status == NotOpen && delegate == null
      ensures pending == arrived && streamError == None
    {
      status := NotOpen;
      delegate := null;
      pending := arrived;
      streamError := None;
    }

    /** `hasBytesAvailable`: only an open stream with arrived data reports bytes. */
    predicate HasBytesAvailable()
      reads this
    {
      status == Opened && pending != []
    }

    method Open()
      modifies this`status
      ensures status == AfterOpen(old(status))
    {
      if status == NotOpen {
        status := Opened;
      }
    }

    method Close()
      modifies this`status
      ensures status == Closed
    {
      status := Closed;
    }

    /**
     * `read(buffer, maxLength:)`: at most `maxLength` bytes, taken from the
     * front of the oldest chunk. A chunk that arrived empty reads as 0 bytes.
     */
    method Read(maxLength: nat) returns (chunk: seq<Byte>)
      requires HasBytesAvailable() && maxLength > 0
      modifies this`pending
      ensures |chunk| <= maxLength
      ensures chunk + Flatten(pending) == Flatten(old(pending))
      ensures Backlog(pending) < Backlog(old(pending))
    {
      var head := pending[0];
      if |head| <= maxLength {
        chunk := head;
        pending := pending[1..];
      } else {
        chunk := head[..maxLength];
        pending := [head[maxLength..]] + pending[1..];
        assert pending[1..] == old(pending)[1..];
        assert chunk + head[maxLength..] == head;
      }
    }
  }

  class OutputStream {
    var status: Status
    /** The object the stream reports its events to (`stream.delegate`). */
    var delegate: object?
    /** `hasSpaceAvailable`, as the environment last set it. */
    var hasSpaceAvailable: bool
    /** Every byte the stream has accepted, in order: what the peer receives. */
    var written: seq<Byte>
    var streamError: Option<Error>
    /** How many writes have failed (returned a count <= 0). */
    ghost var failures: nat

    /**
     * The assumption about the environment that the output drain loop
     * depends on: a stream reports space only while it is open, so a closed
     * stream stops reporting space.
     */
    ghost predicate Valid()
      reads this
    {
      hasSpaceAvailable ==> status == Opened
    }

    constructor ()
      ensures Valid()
      ensures status == NotOpen && delegate == null && !hasSpaceAvailable
      ensures written == [] && streamError == None && failures == 0
    {
      status := NotOpen;
      delegate := null;
      hasSpaceAvailable := false;
      written := [];
      streamError := None;
      failures := 0;
    }

    method Open()
      modifies this`status
      ensures status == AfterOpen(old(status))
      ensures old(Valid()) ==> Valid()
    {
      if status == NotOpen {
        status := Opened;
      }
    }

    method Close()
      modifies this`status, this`hasSpaceAvailable
      ensures status == Closed && !hasSpaceAvailable
      ensures Valid()
    {
      status := Closed;
      hasSpaceAvailable := false;
    }

    /**
     * `write(_:maxLength:)`: the peer accepts some count in 1..|data| of the
     * leading bytes, or the write fails with a count <= 0 and possibly sets
     * the stream's error. Whether space remains afterwards is up to the peer.
     */
    method Write(data: seq<Byte>) returns (n: int)
      requires Valid() && hasSpaceAvailable && data != []
      modifies this`written, this`hasSpaceAvailable, this`streamError, this`failures
      ensures Valid()
      ensures n > 0 ==> n <= |data| && written == old(written) + data[..n] && streamError == old(streamError)
      ensures n <= 0 ==> written == old(written)
      ensures failures == old(failures) + (if n <= 0 then 1 else 0)
    {
      n := *;
      if n > |data| {
        n := |data|;
      }
      if n > 0 {
        written := written + data[..n];
      } else {
        streamError := *;
        failures := failures + 1;
      }
      hasSpaceAvailable := *;
    }
  }
}
