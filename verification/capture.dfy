/**
  The response-capture decorator of the gin tracing middleware
  (`LoggingWriter` in ginhttp/server.go).

  The framework's response writer is modelled by `ResponseSink`: the bytes it
  has delivered to the client, the status code it reports, and how many more
  bytes the client connection will still take (`room`).  `LoggingWriter` owns
  a growable buffer and forwards every write to the sink it wraps.
*/
module Capture {
  import opened Wrappers

  /** The error a writer reports when it accepted fewer bytes than offered. */
  datatype WriteError = ErrShortWrite

  /** How many of `len` offered bytes a sink with `room` bytes left accepts. */
  function Accepted(room: nat, len: nat): (n: nat)
    ensures n <= len && n <= room
    ensures n == len || n == room
  {
    if len <= room then len else room
  }

  /** All chunks, concatenated in order. */
  function Concat(chunks: seq<seq<byte>>): seq<byte>
  {
    if chunks == [] then [] else chunks[0] + Concat(chunks[1..])
  }

  /**
    Reference definition of what a sink with `room` bytes left delivers when
    the chunks are written one after the other: each write delivers the part
    of its chunk that still fits.
  */
  function Delivered(room: nat, chunks: seq<seq<byte>>): seq<byte>
  {
    if chunks == [] then []
    else
      var n := Accepted(room, |chunks[0]|);
      chunks[0][..n] + Delivered(room - n, chunks[1..])
  }

  /**
    Whatever the sink's room, the delivered bytes are a prefix of the
    concatenated chunks: exactly as many bytes as fitted.  When everything
    fits, the sink received every byte.
  */
  lemma {:induction false} DeliveredIsPrefix(room: nat, chunks: seq<seq<byte>>)
    ensures Delivered(room, chunks) == Concat(chunks)[..Accepted(room, |Concat(chunks)|)]
    ensures |Concat(chunks)| <= room ==> Delivered(room, chunks) == Concat(chunks)
  {
    if chunks != [] {
      var c, rest := chunks[0], chunks[1..];
      var n := Accepted(room, |c|);
      DeliveredIsPrefix(room - n, rest);
      var all := Concat(chunks);
      assert all == c + Concat(rest);
      if n < |c| {
        assert n == room;
        assert Accepted(room - n, |Concat(rest)|) == 0;
        assert Accepted(room, |all|) == room;
        assert Delivered(room, chunks) == c[..room];
        assert all[..room] == c[..room];
      } else {
        var m := Accepted(room - n, |Concat(rest)|);
        assert Accepted(room, |all|) == |c| + m;
        assert all[..|c| + m] == c + Concat(rest)[..m];
      }
    }
  }

  /** The framework's response writer that the middleware wraps. */
  class ResponseSink {
    var written: seq<byte>
    var status: int
    var room: nat

    constructor (status: int, room: nat)
      ensures written == [] && this.status == status && this.room == room
    {
      written := [];
      this.status := status;
      this.room := room;
    }

    /** Delivers as many bytes as the connection takes; a short write is an error. */
    method Write(data: seq<byte>) returns (n: nat, err: Option<WriteError>)
      modifies this
      ensures n == Accepted(old(room), |data|)
      ensures err == None <==> n == |data|
      ensures written == old(written) + data[..n]
      ensures room == old(room) - n
      ensures status == old(status)
    {
      n := Accepted(room, |data|);
      err := if n == |data| then None else Some(ErrShortWrite);
      written := written + data[..n];
      room := room - n;
    }

    /** Records the response status code. */
    method WriteHeader(code: int)
      modifies this
      ensures status == code
      ensures written == old(written) && room == old(room)
    {
      status := code;
    }
  }

  /**
    The decorator: `writer` is the embedded response writer (borrowed, never
    replaced), `buffer` the owned capture of every byte written through it.
  */
  class LoggingWriter {
    const writer: ResponseSink
    var buffer: seq<byte>

    /** NewLoggingWriter: an empty buffer around the given writer. */
    constructor (responseWriter: ResponseSink)
      ensures writer == responseWriter
      ensures buffer == []
    {
      writer := responseWriter;
      buffer := [];
    }

    /**
      Appends `data` to the buffer, then forwards the same bytes to the
      wrapped writer and returns that writer's result unchanged.  The
      status code is not touched.
    */
    method Write(data: seq<byte>) returns (n: nat, err: Option<WriteError>)
      modifies this, writer
      ensures buffer == old(buffer) + data
      ensures n == Accepted(old(writer.room), |data|)
      ensures err == None <==> n == |data|
      ensures writer.written == old(writer.written) + data[..n]
      ensures writer.room == old(writer.room) - n
      ensures writer.status == old(writer.status)
    {
      buffer := buffer + data;
      n, err := writer.Write(data);
    }

    /** The status code, read through from the wrapped writer. */
    method Status() returns (code: int)
      ensures code == writer.status
    {
      code := writer.status;
    }
  }

  /**
    The downstream handler chain (`c.Next()`) as seen by the wrapper: it sets
    a status code on the wrapped writer and writes `chunks` in order through
    the decorator.  Afterwards the buffer holds every chunk, in call order,
    and the client received exactly what the connection took of them.
  */
  method RunHandlers(w: LoggingWriter, status: int, chunks: seq<seq<byte>>)
    modifies w, w.writer
    ensures w.buffer == old(w.buffer) + Concat(chunks)
    ensures w.writer.written == old(w.writer.written) + Delivered(old(w.writer.room), chunks)
    ensures w.writer.room == old(w.writer.room) - |Delivered(old(w.writer.room), chunks)|
    ensures w.writer.status == status
  {
    w.writer.WriteHeader(status);
    var i := 0;
    while i < |chunks|
      invariant 0 <= i <= |chunks|
      invariant w.buffer + Concat(chunks[i..]) == old(w.buffer) + Concat(chunks)
      invariant w.writer.written + Delivered(w.writer.room, chunks[i..])
             == old(w.writer.written) + Delivered(old(w.writer.room), chunks)
      invariant w.writer.room - |Delivered(w.writer.room, chunks[i..])|
             == old(w.writer.room) - |Delivered(old(w.writer.room), chunks)|
      invariant w.writer.status == status
    {
      assert chunks[i..][1..] == chunks[i + 1..];
      var _, _ := w.Write(chunks[i]);
      i := i + 1;
    }
    assert chunks[i..] == [];
  }
}
