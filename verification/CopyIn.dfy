/** Streaming a tar archive into a box: the read and write loop, and how the native stream is ended. */
module CopyIn {
  import opened Prelude

  type byte = x: int | 0 <= x < 256

  const BUFFER_SIZE: nat := 0x10_0000
  const MAX_EMPTY_READS: nat := 100

  datatype ReadError = Eof | SourceFailed

  /** What one `Read` gives: bytes, an error, both or neither. */
  datatype ReadResult = ReadResult(data: seq<byte>, err: Option<ReadError>)

  datatype Failure = StartFailed | WriteFailed | ReadFailed | NoProgress | CloseFailed

  /** What the native side is told. */
  datatype Event = Write(data: seq<byte>, ok: bool) | Close(closed: bool) | Abort | Free

  /** The bytes of the first `n` reads. */
  function BytesRead(script: nat -> ReadResult, n: nat): seq<byte> {
    if n == 0 then [] else BytesRead(script, n - 1) + script(n - 1).data
  }

  /** The bytes passed to native writes. */
  function BytesWritten(events: seq<Event>): seq<byte> {
    if events == [] then [] else
      BytesWritten(events[..|events| - 1])
      + (if events[|events| - 1].Write? then events[|events| - 1].data else [])
  }

  class Reader {
    const script: nat -> ReadResult
    var count: nat

    constructor (script: nat -> ReadResult)
      ensures this.script == script && count == 0
    {
      this.script := script;
      count := 0;
    }

    /** Fills the start of `buf`. */
    method Read(buf: array<byte>) returns (n: nat, err: Option<ReadError>)
      requires |script(count).data| <= buf.Length
      modifies this, buf
      ensures count == old(count) + 1 && n == |script(old(count)).data| && err == script(old(count)).err
      ensures n <= buf.Length && buf[..n] == script(old(count)).data
    {
      var r := script(count);
      n, err := |r.data|, r.err;
      for i := 0 to n
        invariant buf[..i] == r.data[..i] && count == old(count)
      {
        buf[i] := r.data[i];
      }
      count := count + 1;
    }
  }

  /** A native copy-in stream; `accepts` says which of its writes succeed. */
  class Stream {
    const accepts: nat -> bool
    const closes: bool
    var events: seq<Event>

    constructor (accepts: nat -> bool, closes: bool)
      ensures this.accepts == accepts && this.closes == closes && events == []
    {
      this.accepts := accepts;
      this.closes := closes;
      events := [];
    }

    method WriteBytes(data: seq<byte>) returns (ok: bool)
      modifies this
      ensures ok == accepts(|old(events)|) && events == old(events) + [Write(data, ok)]
    {
      ok := accepts(|events|);
      events := events + [Write(data, ok)];
    }

    method CloseStream() returns (ok: bool)
      modifies this
      ensures ok == closes && events == old(events) + [Close(ok)]
    {
      ok := closes;
      events := events + [Close(ok)];
    }

    method AbortStream()
      modifies this
      ensures events == old(events) + [Abort]
    {
      events := events + [Abort];
    }

    method FreeStream()
      modifies this
      ensures events == old(events) + [Free]
    {
      events := events + [Free];
    }
  }

  predicate AllWritesOk(events: seq<Event>) {
    forall i :: 0 <= i < |events| ==> events[i].Write? && events[i].ok
  }

  /** Reads `from` to `to` gave nothing at all. */
  predicate Empty(script: nat -> ReadResult, from: nat, to: nat) {
    forall k: nat :: from <= k < to ==> script(k).data == [] && script(k).err.None?
  }

  /** The first `n` reads reported no error. */
  predicate Quiet(script: nat -> ReadResult, n: nat) { forall k: nat :: k < n ==> script(k).err.None? }

  /** The whole source has been read and every byte of it accepted, in order. */
  predicate Complete(script: nat -> ReadResult, count: nat, events: seq<Event>) {
    && count > 0 && script(count - 1).err == Some(Eof) && Quiet(script, count - 1)
    && AllWritesOk(events) && BytesWritten(events) == BytesRead(script, count)
  }

  /** Why the transfer was given up. */
  predicate Broken(script: nat -> ReadResult, count: nat, events: seq<Event>, why: Failure) {
    && count > 0 && Quiet(script, count - 1)
    && match why
       case WriteFailed => |events| > 0 && events[|events| - 1].Write? && !events[|events| - 1].ok
       case ReadFailed => script(count - 1).err == Some(SourceFailed)
       case NoProgress => count >= MAX_EMPTY_READS && Empty(script, count - MAX_EMPTY_READS, count)
       case _ => false
  }

  /** The last hundred reads gave neither a byte nor an error. */
  predicate GaveNothing(script: nat -> ReadResult, count: nat) {
    count >= 100 && forall k: nat :: count - 100 <= k < count ==> script(k) == ReadResult([], None)
  }

  lemma WrittenNext(events: seq<Event>, e: Event)
    ensures BytesWritten(events + [e]) == BytesWritten(events) + (if e.Write? then e.data else [])
  {
    assert (events + [e])[..|events|] == events;
  }

  /** The loop goes on: `count` reads done, the last `noProgress` of them empty. */
  predicate Going(script: nat -> ReadResult, count: nat, noProgress: nat, events: seq<Event>) {
    && noProgress < MAX_EMPTY_READS && noProgress <= count
    && Quiet(script, count) && Empty(script, count - noProgress, count)
    && AllWritesOk(events) && BytesWritten(events) == BytesRead(script, count)
  }

  /** The writes after a read: one for its bytes, if it gave any. */
  function WritesAfter(events: seq<Event>, data: seq<byte>, ok: bool): seq<Event> {
    if data == [] then events else events + [Write(data, ok)]
  }

  lemma AfterRead(script: nat -> ReadResult, count: nat, noProgress: nat, events: seq<Event>, ok: bool)
    requires Going(script, count, noProgress, events)
    ensures var now := WritesAfter(events, script(count).data, ok);
      && BytesWritten(now) == BytesRead(script, count + 1)
      && (forall i :: 0 <= i < |now| ==> now[i].Write?)
      && (script(count).data != [] && !ok ==> Broken(script, count + 1, now, WriteFailed))
      && (script(count).data == [] || ok ==> AllWritesOk(now))
      && (script(count).err.None? ==> Quiet(script, count + 1))
  {
    hide BytesWritten;
    if script(count).data != [] { WrittenNext(events, Write(script(count).data, ok)); }
  }

  lemma AfterEmptyRead(script: nat -> ReadResult, count: nat, noProgress: nat, events: seq<Event>)
    requires Going(script, count, noProgress, events)
    requires script(count).data == [] && script(count).err.None?
    ensures if noProgress + 1 < MAX_EMPTY_READS then Going(script, count + 1, noProgress + 1, events)
            else Broken(script, count + 1, events, NoProgress)
  {
    hide BytesWritten;
  }

  lemma AfterBytes(script: nat -> ReadResult, count: nat, noProgress: nat, events: seq<Event>)
    requires Going(script, count, noProgress, events)
    requires script(count).data != [] && script(count).err.None?
    ensures Going(script, count + 1, 0, events + [Write(script(count).data, true)])
  {
    AfterRead(script, count, noProgress, events, true);
    hide BytesWritten, BytesRead;
  }

  lemma AfterLastRead(script: nat -> ReadResult, count: nat, noProgress: nat, events: seq<Event>)
    requires Going(script, count, noProgress, events) && script(count).err.Some?
    ensures script(count).err.value.Eof? ==> Complete(script, count + 1, WritesAfter(events, script(count).data, true))
    ensures !script(count).err.value.Eof? ==>
      Broken(script, count + 1, WritesAfter(events, script(count).data, true), ReadFailed)
  {
    hide Quiet, Empty, AllWritesOk, BytesWritten, BytesRead;
    AfterRead(script, count, noProgress, events, true);
    assert script(count).err == Some(script(count).err.value);
  }

  lemma NothingReadYet(script: nat -> ReadResult)
    ensures Going(script, 0, 0, [])
  {
  }

  /** One turn's read, and the write of what it gave. */
  method ReadAndWrite(reader: Reader, stream: Stream, buf: array<byte>) returns (n: nat, err: Option<ReadError>, ok: bool)
    requires |reader.script(reader.count).data| <= buf.Length
    modifies reader, stream, buf
    ensures reader.count == old(reader.count) + 1
    ensures var r := reader.script(old(reader.count));
      n == |r.data| && err == r.err && stream.events == WritesAfter(old(stream.events), r.data, ok) && (n == 0 ==> ok)
  {
    ok := true;
    n, err := reader.Read(buf);
    if n > 0 { ok := stream.WriteBytes(buf[..n]); }
  }

  /**
   The loop: writes what it reads until the source ends, fails, or gives nothing a hundred
   times running. `bound` is only there to show that it ends.
   */
  method Transfer(reader: Reader, stream: Stream, ghost bound: nat) returns (failure: Option<Failure>)
    requires reader.count == 0 && stream.events == []
    requires forall k: nat :: |reader.script(k).data| <= BUFFER_SIZE && (k >= bound ==> reader.script(k).data == [])
    modifies reader, stream
    ensures failure.None? ==> Complete(reader.script, reader.count, stream.events)
    ensures failure.Some? ==> Broken(reader.script, reader.count, stream.events, failure.value)
    ensures forall i :: 0 <= i < |stream.events| ==> stream.events[i].Write?
    ensures BytesWritten(stream.events) == BytesRead(reader.script, reader.count)
    ensures reader.count <= bound + 100
  {
    var buf := new byte[BUFFER_SIZE];
    var noProgress := 0;
    NothingReadYet(reader.script);
    hide Going, Complete, Broken, BytesWritten, BytesRead, AllWritesOk, Quiet, Empty;
    while true
      invariant Going(reader.script, reader.count, noProgress, stream.events) && noProgress < MAX_EMPTY_READS
      invariant reader.count <= bound + noProgress
      decreases bound + MAX_EMPTY_READS - reader.count
    {
      ghost var k, before, script := reader.count, stream.events, reader.script;
      var n, readErr, ok := ReadAndWrite(reader, stream, buf);
      AfterRead(script, k, noProgress, before, ok);
      if !ok { return Some(WriteFailed); }
      if readErr.Some? {
        AfterLastRead(script, k, noProgress, before);
        if !readErr.value.Eof? { return Some(ReadFailed); }
        return None;
      }
      if n == 0 {
        AfterEmptyRead(script, k, noProgress, before);
        noProgress := noProgress + 1;
        if noProgress >= MAX_EMPTY_READS { return Some(NoProgress); }
      } else {
        AfterBytes(script, k, noProgress, before);
        noProgress := 0;
      }
    }
  }

  /**
   `CopyInStream` up to the wait for the guest: a stream that was started is closed or
   aborted, one of the two and once, and then freed.
   */
  method CopyInStream(reader: Reader, stream: Stream, started: bool, ghost bound: nat) returns (failure: Option<Failure>)
    requires reader.count == 0 && stream.events == []
    requires forall k: nat :: |reader.script(k).data| <= BUFFER_SIZE && (k >= bound ==> reader.script(k).data == [])
    modifies reader, stream
    ensures !started ==> failure == Some(StartFailed) && stream.events == [] && reader.count == 0
    ensures started ==>
      |stream.events| >= 2 && stream.events[|stream.events| - 1].Free?
      && var writes, end := stream.events[..|stream.events| - 2], stream.events[|stream.events| - 2];
      && (forall i :: 0 <= i < |writes| ==> writes[i].Write?)
      && BytesWritten(writes) == BytesRead(reader.script, reader.count)
      && (end.Close? || end.Abort?)
      && (end.Close? || end.Abort? ==> reader.count > 0)
      && (end.Close? ==> end.closed == stream.closes && Complete(reader.script, reader.count, writes)
                         && failure == (if stream.closes then None else Some(CloseFailed)))
      && (end.Abort? ==> failure.Some? && Broken(reader.script, reader.count, writes, failure.value))
      && (end.Abort? && failure == Some(NoProgress) ==> GaveNothing(reader.script, reader.count))
      && (end.Abort? && failure == Some(WriteFailed) ==> writes != [] && writes[|writes| - 1].Write? && !writes[|writes| - 1].ok)
      && (end.Abort? && failure == Some(ReadFailed) ==> reader.script(reader.count - 1).err == Some(SourceFailed))
      && (end.Close? ==> reader.script(reader.count - 1).err == Some(Eof)
                         && forall i :: 0 <= i < |writes| ==> writes[i].Write? && writes[i].ok)
    ensures reader.count <= bound + 100
  {
    if !started { return Some(StartFailed); }
    failure := Transfer(reader, stream, bound);
    ghost var writes := stream.events;
    if failure.Some? {
      stream.AbortStream();
    } else {
      var ok := stream.CloseStream();
      if !ok { failure := Some(CloseFailed); }
    }
    stream.FreeStream();
    assert stream.events[..|writes|] == writes;
  }
}
