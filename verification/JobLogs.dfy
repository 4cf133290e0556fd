/** Step logs as immutable chunks, written in flushes and tailed by byte offset
    (job_logs.py). */
module JobLogs {
  import opened Utf8

  const FLUSH_BYTES: nat := 4096

  function Concat(chunks: seq<seq<Byte>>): seq<Byte> {
    if chunks == [] then [] else Concat(chunks[..|chunks| - 1]) + chunks[|chunks| - 1]
  }

  function Join(texts: seq<string>): string {
    if texts == [] then "" else Join(texts[..|texts| - 1]) + texts[|texts| - 1]
  }

  function Upto<T>(s: seq<T>, n: nat): seq<T> {
    if n <= |s| then s[n..] else []
  }

  // ---- The writer ----

  /** Chunk k of the log is chunks[k]. */
  class StepLogWriter {
    var buffer: seq<string>
    var bufferedBytes: nat
    var chunks: seq<seq<Byte>>
    var totalBytes: nat
    ghost var flushed: string

    /** The chunks are the bytes of the flushed text, none of them splitting a character or
        empty, and the counters are true. */
    ghost predicate Valid()
      reads this
    {
      && Concat(chunks) == Encode(flushed) && totalBytes == |Concat(chunks)|
      && bufferedBytes == |Encode(Join(buffer))|
      && forall k :: 0 <= k < |chunks| ==> chunks[k] != []
    }

    constructor ()
      ensures Valid() && flushed == "" && Join(buffer) == ""
    {
      buffer, bufferedBytes, chunks, totalBytes, flushed := [], 0, [], 0, "";
    }

    method Write(text: string)
      requires Valid()
      modifies this`buffer, this`bufferedBytes
      ensures Valid() && Join(buffer) == old(Join(buffer)) + text
    {
      if text != "" {
        EncodeOfBoth(Join(buffer), text);
        assert (buffer + [text])[..|buffer|] == buffer;
        buffer := buffer + [text];
        bufferedBytes := bufferedBytes + |Encode(text)|;
      } else {
        assert Join(buffer) + "" == Join(buffer);
      }
    }

    predicate ShouldFlush()
      reads this
    {
      bufferedBytes >= FLUSH_BYTES
    }

    /** Everything written so far is now in the chunks; earlier chunks are untouched. */
    method Flush() returns (total: nat)
      requires Valid()
      modifies this
      ensures Valid() && flushed == old(flushed + Join(buffer)) && Join(buffer) == ""
      ensures total == totalBytes == |Encode(flushed)|
      ensures var data := Encode(old(Join(buffer)));
        chunks == if data == [] then old(chunks) else old(chunks) + [data]
    {
      if bufferedBytes == 0 {
        EmptyText(Join(buffer));
        assert flushed + "" == flushed;
        return totalBytes;
      }
      var data := Encode(Join(buffer));
      EncodeOfBoth(flushed, Join(buffer));
      assert (chunks + [data])[..|chunks|] == chunks;
      chunks := chunks + [data];
      totalBytes := totalBytes + |data|;
      flushed := flushed + Join(buffer);
      buffer, bufferedBytes := [], 0;
      total := totalBytes;
    }

    /** The writer's protocol, a write and then a flush once enough has buffered: no text is
        lost, and less than FLUSH_BYTES waits in memory. */
    method Log(text: string)
      requires Valid()
      modifies this
      ensures Valid() && flushed + Join(buffer) == old(flushed + Join(buffer)) + text
      ensures |Encode(Join(buffer))| < FLUSH_BYTES
      ensures old(|Encode(Join(buffer))|) + |Encode(text)| < FLUSH_BYTES ==> chunks == old(chunks)
    {
      EncodeOfBoth(Join(buffer), text);
      Write(text);
      assert flushed + Join(buffer) == old(flushed + Join(buffer)) + text;
      if ShouldFlush() {
        var _ := Flush();
        assert flushed + Join(buffer) == flushed;
      }
    }
  }

  lemma EmptyText(s: string)
    ensures |Encode(s)| == 0 <==> s == ""
  {
  }

  // ---- The reader ----

  /** An open-ended byte range: nothing at or past the end. */
  function GetRange(object_: seq<Byte>, start: nat): seq<Byte> {
    Upto(object_, start)
  }

  /** Exactly the bytes from `after` on, and the total as the next offset. */
  method ReadStepLog(chunks: seq<seq<Byte>>, after: nat) returns (content: string, nextOffset: nat)
    ensures content == Decode(Upto(Concat(chunks), after)) && nextOffset == |Concat(chunks)|
  {
    var parts: seq<Byte>, offset, i := [], 0, 0;
    while i < |chunks|
      invariant 0 <= i <= |chunks| && offset == |Concat(chunks[..i])| && parts == Upto(Concat(chunks[..i]), after)
    {
      assert chunks[..i + 1][..i] == chunks[..i];
      UptoOfBoth(Concat(chunks[..i]), chunks[i], after);
      var chunkStart := offset;
      if after <= chunkStart {
        var data := GetRange(chunks[i], 0);
        parts := parts + data;
        offset := chunkStart + |data|;
      } else {
        var suffix := GetRange(chunks[i], after - chunkStart);
        if suffix != [] {
          parts := parts + suffix;
          offset := after + |suffix|;
        } else {
          offset := chunkStart + |GetRange(chunks[i], 0)|;
        }
      }
      i := i + 1;
    }
    assert chunks[..i] == chunks;
    return Decode(parts), offset;
  }

  lemma UptoOfBoth(a: seq<Byte>, b: seq<Byte>, n: nat)
    ensures n <= |a| ==> Upto(a + b, n) == Upto(a, n) + b
    ensures n > |a| ==> Upto(a, n) == [] && Upto(a + b, n) == Upto(b, n - |a|)
  {
  }

  // ---- A client that polls while the step runs ----

  /** `text` is what the client has put together; `pos` the offset it polls from next. */
  datatype State = State(chunks: seq<seq<Byte>>, flushed: string, buffer: string, pos: nat, text: string)

  datatype Action = WriteText(s: string) | FlushBuffer | Poll

  function Apply(s: State, a: Action): State {
    match a
    case WriteText(t) => s.(buffer := s.buffer + t)
    case FlushBuffer =>
      if Encode(s.buffer) == [] then s
      else s.(chunks := s.chunks + [Encode(s.buffer)], flushed := s.flushed + s.buffer, buffer := "")
    case Poll => s.(text := s.text + Decode(Upto(Concat(s.chunks), s.pos)), pos := |Concat(s.chunks)|)
  }

  function Final(s: State, run: seq<Action>): State {
    if run == [] then s else Apply(Final(s, run[..|run| - 1]), run[|run| - 1])
  }

  /** The client holds the flushed text up to a character boundary, and polls from there. */
  ghost predicate InStep(s: State) {
    && Concat(s.chunks) == Encode(s.flushed)
    && |s.text| <= |s.flushed| && s.text == s.flushed[..|s.text|] && s.pos == |Encode(s.text)|
  }

  lemma PollCatchesUp(s: State)
    requires InStep(s)
    ensures Apply(s, Poll).text == s.flushed && InStep(Apply(s, Poll))
  {
    var rest := s.flushed[|s.text|..];
    assert s.flushed == s.text + rest;
    EncodeOfBoth(s.text, rest);
    assert Upto(Encode(s.text) + Encode(rest), s.pos) == Encode(rest);
    DecodeEncode(rest);
    assert s.flushed[..|s.flushed|] == s.flushed;
  }

  lemma FlushStaysInStep(s: State)
    requires InStep(s)
    ensures InStep(Apply(s, FlushBuffer))
  {
    EncodeOfBoth(s.flushed, s.buffer);
    assert (s.chunks + [Encode(s.buffer)])[..|s.chunks|] == s.chunks;
    assert (s.flushed + s.buffer)[..|s.text|] == s.text;
  }

  /** However writes, flushes and polls interleave, the client always holds a prefix of the
      flushed text, whole characters only, and all of it right after a poll. */
  lemma {:induction false} PollingReconstructs(s: State, run: seq<Action>)
    requires InStep(s)
    ensures InStep(Final(s, run))
    ensures run != [] && run[|run| - 1] == Poll ==> Final(s, run).text == Final(s, run).flushed
  {
    if run != [] {
      var before := Final(s, run[..|run| - 1]);
      PollingReconstructs(s, run[..|run| - 1]);
      match run[|run| - 1] {
        case WriteText(_) =>
        case FlushBuffer => FlushStaysInStep(before);
        case Poll => PollCatchesUp(before);
      }
    }
  }

  // ---- The writer and the reader carry the machine out ----

  /** A step's log while the step runs: its writer, and a client polling its chunks. */
  class TailedLog {
    const writer: StepLogWriter
    var pos: nat
    var text: string

    ghost function Now(): State
      reads this, writer
    {
      State(writer.chunks, writer.flushed, Join(writer.buffer), pos, text)
    }

    /** The client holds a whole-character prefix of the flushed text. */
    ghost predicate Valid()
      reads this, writer
    {
      writer.Valid() && InStep(Now())
    }

    constructor ()
      ensures Valid() && fresh(writer) && text == "" && writer.flushed == ""
    {
      writer := new StepLogWriter();
      pos, text := 0, "";
    }

    method Write(t: string)
      requires Valid()
      modifies writer
      ensures Valid() && Now() == Apply(old(Now()), WriteText(t))
    {
      writer.Write(t);
    }

    method Flush()
      requires Valid()
      modifies writer
      ensures Valid() && Now() == Apply(old(Now()), FlushBuffer)
    {
      FlushStaysInStep(Now());
      var _ := writer.Flush();
    }

    /** One poll of the log endpoint from the last offset it gave: the client has caught up. */
    method Poll()
      requires Valid()
      modifies this`pos, this`text
      ensures Valid() && Now() == Apply(old(Now()), Action.Poll) && text == writer.flushed
    {
      PollCatchesUp(Now());
      var content, next := ReadStepLog(writer.chunks, pos);
      text, pos := text + content, next;
    }
  }
}
