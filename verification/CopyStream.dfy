/** COPY data arriving in messages and read in chunks of other sizes, from the client and from a
    TRANSMIT connection. No byte is lost, added or reordered by the rechunking. */
module CopyStream {

  import opened Basics

  const MAX_READ_SIZE: nat := 65536

  datatype Message = CopyData(data: ByteString) | CopyDone | CopyFail | Flush | Sync | Unexpected

  /** How the messages end: a CopyDone, or a failure, an unexpected message or a lost connection. */
  datatype End = Done | Broken

  /** The data up to the first message that ends the stream; flush and sync add nothing. */
  function Delivered(ms: seq<Message>): ByteString {
    if ms == [] then []
    else
      match ms[0]
      case CopyData(d) => d + Delivered(ms[1..])
      case Flush => Delivered(ms[1..])
      case Sync => Delivered(ms[1..])
      case _ => []
  }

  function EndOf(ms: seq<Message>): End {
    if ms == [] then Broken
    else
      match ms[0]
      case CopyData(_) => EndOf(ms[1..])
      case Flush => EndOf(ms[1..])
      case Sync => EndOf(ms[1..])
      case CopyDone => Done
      case _ => Broken
  }

  predicate Skipped(m: Message) {
    m.Flush? || m.Sync?
  }

  /** Flush and sync messages may be put anywhere without effect. */
  lemma {:induction false} SkippedAddNothing(a: seq<Message>, m: Message, b: seq<Message>)
    requires Skipped(m)
    ensures Delivered(a + [m] + b) == Delivered(a + b) && EndOf(a + [m] + b) == EndOf(a + b)
  {
    var x, y := a + [m] + b, a + b;
    if a == [] {
      assert x[1..] == y;
    } else {
      assert x[1..] == a[1..] + [m] + b && y[1..] == a[1..] + b;
      SkippedAddNothing(a[1..], m, b);
    }
  }

  /** How the payload is cut into messages does not matter. */
  lemma {:induction false} CutsAddNothing(a: seq<Message>, d: ByteString, e: ByteString, b: seq<Message>)
    ensures Delivered(a + [CopyData(d), CopyData(e)] + b) == Delivered(a + [CopyData(d + e)] + b)
    ensures EndOf(a + [CopyData(d), CopyData(e)] + b) == EndOf(a + [CopyData(d + e)] + b)
  {
    var x, y := a + [CopyData(d), CopyData(e)] + b, a + [CopyData(d + e)] + b;
    if a == [] {
      assert y[1..] == b;
      assert x[1..] == [CopyData(e)] + b && x[1..][1..] == b;
      assert d + (e + Delivered(b)) == d + e + Delivered(b);
    } else {
      assert x[1..] == a[1..] + [CopyData(d), CopyData(e)] + b && y[1..] == a[1..] + [CopyData(d + e)] + b;
      CutsAddNothing(a[1..], d, e, b);
    }
  }

  class CopyFromStdinState {

    var incoming: seq<Message>        // messages the client sends
    var msgbuf: ByteString
    var cursor: nat
    var reachedEof: bool

    constructor (incoming: seq<Message>)
      ensures this.incoming == incoming && Valid() && !reachedEof && Pending() == Delivered(incoming)
    {
      this.incoming, msgbuf, cursor, reachedEof := incoming, [], 0, false;
    }

    ghost predicate Valid()
      reads this
    {
      cursor <= |msgbuf| && (reachedEof ==> cursor == |msgbuf|)
    }

    /** The bytes that are still to be delivered. */
    ghost function Pending(): ByteString
      reads this
      requires Valid()
    {
      msgbuf[cursor..] + if reachedEof then [] else Delivered(incoming)
    }

    /** Reads messages until one brings data, the stream ends, or it breaks. */
    method ReadMessage() returns (ok: bool)
      requires Valid() && cursor == |msgbuf| && !reachedEof
      modifies this
      ensures Valid()
      ensures Pending() == old(Pending())
      ensures ok ==> reachedEof || cursor < |msgbuf|
      ensures ok && !reachedEof ==> EndOf(incoming) == EndOf(old(incoming))
      ensures reachedEof ==> ok && EndOf(old(incoming)) == Done
      ensures !ok ==> EndOf(old(incoming)) == Broken && Pending() == []
    {
      while cursor >= |msgbuf|
        invariant Valid() && !reachedEof
        invariant Pending() == old(Pending()) && EndOf(incoming) == EndOf(old(incoming))
        decreases |incoming|, |msgbuf| - cursor
      {
        if incoming == [] {
          return false;
        }
        var m := incoming[0];
        match m {
          case CopyData(d) =>
            incoming, msgbuf, cursor := incoming[1..], d, 0;
          case CopyDone =>
            incoming, msgbuf, cursor, reachedEof := incoming[1..], [], 0, true;
            return true;
          case Flush =>
            incoming, msgbuf, cursor := incoming[1..], [], 0;
          case Sync =>
            incoming, msgbuf, cursor := incoming[1..], [], 0;
          case CopyFail =>
            return false;
          case Unexpected =>
            return false;
        }
      }
      ok := true;
    }

    /** Delivers at least one byte, unless the stream has ended or is broken. */
    method ReceiveDataFromClient() returns (ok: bool, data: ByteString)
      requires Valid()
      modifies this
      ensures Valid() && data + Pending() == old(Pending()) && |data| <= MAX_READ_SIZE
      ensures ok && data == [] ==> reachedEof && Pending() == []
      ensures ok && !old(reachedEof) && !reachedEof ==> EndOf(incoming) == EndOf(old(incoming))
      ensures !old(reachedEof) && reachedEof ==> ok && EndOf(old(incoming)) == Done && Pending() == []
      ensures old(reachedEof) ==> ok && reachedEof
      ensures !ok ==> !old(reachedEof) && EndOf(old(incoming)) == Broken && data == [] && Pending() == []
    {
      ok, data := true, [];
      if !reachedEof {
        if cursor >= |msgbuf| {
          ok := ReadMessage();
          if !ok || reachedEof {
            return;
          }
        }
        var avail := if |msgbuf| - cursor > MAX_READ_SIZE then MAX_READ_SIZE else |msgbuf| - cursor;
        data := msgbuf[cursor..cursor + avail];
        assert msgbuf[cursor..] == data + msgbuf[cursor + avail..];
        cursor := cursor + avail;
      }
    }
  }

  /** Writes the client's data to a file. The file gets exactly the delivered bytes, and the call
      succeeds exactly if the client ended the stream properly. */
  method CopyInputToFile(messages: seq<Message>) returns (ok: bool, file: ByteString)
    ensures file == Delivered(messages)
    ensures ok <==> EndOf(messages) == Done
  {
    var cstate := new CopyFromStdinState(messages);
    file, ok := [], true;
    while !cstate.reachedEof
      invariant cstate.Valid() && ok
      invariant file + cstate.Pending() == Delivered(messages)
      invariant cstate.reachedEof ==> EndOf(messages) == Done && cstate.Pending() == []
      invariant !cstate.reachedEof ==> EndOf(cstate.incoming) == EndOf(messages)
      invariant fresh(cstate)
      decreases !cstate.reachedEof, |cstate.Pending()|
    {
      ghost var before := file;
      var data;
      ok, data := cstate.ReceiveDataFromClient();
      assert before + (data + cstate.Pending()) == before + data + cstate.Pending();
      file := file + data;
      if !ok {
        assert file + [] == file;
        return;
      }
      if data == [] {
        break;
      }
    }
    assert file + [] == file;
  }

  // ----- TRANSMIT -----

  function Joined(chunks: seq<ByteString>): ByteString {
    if chunks == [] then [] else chunks[0] + Joined(chunks[1..])
  }

  /** Data messages as libpq hands them out: empty ones are dropped. */
  predicate NonEmpty(chunks: seq<ByteString>) {
    forall i :: 0 <= i < |chunks| ==> chunks[i] != []
  }

  /** The result that waits behind the data of a COPY; it is fetched once. */
  datatype CopyResult = Fetched | Succeeded | Failed

  datatype Receipt = More | AtEnd | Raised

  class TransmitReader {

    var incoming: seq<ByteString>          // payloads still to come from the connection
    var copyResult: CopyResult
    var buffer: ByteString
    var cursor: nat

    constructor (incoming: seq<ByteString>, copyResult: CopyResult)
      requires NonEmpty(incoming)
      ensures Valid() && Pending() == Joined(incoming) && this.copyResult == copyResult
    {
      this.incoming, this.copyResult, buffer, cursor := incoming, copyResult, [], 0;
    }

    ghost predicate Valid()
      reads this
    {
      cursor <= |buffer| && NonEmpty(incoming)
    }

    ghost function Pending(): ByteString
      reads this
      requires Valid()
    {
      buffer[cursor..] + Joined(incoming)
    }

    /** A failed COPY raises its error at the end of the data, once. */
    method ReceiveCopyData() returns (r: Receipt)
      requires Valid() && cursor == |buffer|
      modifies this
      ensures Valid() && Pending() == old(Pending())
      ensures r.More? <==> old(incoming) != []
      ensures r.More? ==> cursor < |buffer| && copyResult == old(copyResult)
      ensures r.Raised? <==> old(incoming) == [] && old(copyResult).Failed?
      ensures !r.More? ==> Pending() == [] && copyResult.Fetched?
    {
      if incoming == [] {
        r := if copyResult.Failed? then Raised else AtEnd;
        copyResult := Fetched;
        return;
      }
      assert incoming[0] != [];
      buffer, cursor, incoming := incoming[0], 0, incoming[1..];
      r := More;
    }

    /** Copies out what is buffered before fetching more; 0 bytes only at the end of the stream. */
    method CopyReceivedTransmitDataToBuffer(maxRead: nat) returns (ok: bool, outbuf: ByteString)
      requires Valid() && maxRead > 0
      modifies this
      ensures Valid() && outbuf + Pending() == old(Pending()) && |outbuf| <= maxRead
      ensures outbuf == [] <==> old(Pending()) == []
      ensures ok <==> old(Pending()) != [] || !old(copyResult).Failed?
      ensures copyResult == if old(Pending()) == [] then Fetched else old(copyResult)
    {
      ok, outbuf := true, [];
      if cursor == |buffer| {
        var r := ReceiveCopyData();
        if !r.More? {
          return !r.Raised?, [];
        }
      }
      var n := if maxRead < |buffer| - cursor then maxRead else |buffer| - cursor;
      outbuf := buffer[cursor..cursor + n];
      assert buffer[cursor..] == outbuf + buffer[cursor + n..];
      cursor := cursor + n;
    }

    /** Any number of reads of any positive sizes delivers the stream from its beginning; a failed COPY is
        raised only after all of its data. */
    method ReadInChunks(sizes: seq<nat>) returns (ok: bool, all: ByteString)
      requires Valid() && forall i :: 0 <= i < |sizes| ==> sizes[i] > 0
      modifies this
      ensures Valid() && all + Pending() == old(Pending())
      ensures !ok ==> old(copyResult).Failed? && all == old(Pending())
      ensures ok && old(copyResult).Failed? ==> copyResult.Failed?
    {
      ok, all := true, [];
      for i := 0 to |sizes|
        invariant Valid() && all + Pending() == old(Pending())
        invariant copyResult == old(copyResult) || (copyResult.Fetched? && !old(copyResult).Failed?)
        invariant ok
      {
        ghost var before := all;
        var outbuf;
        ok, outbuf := CopyReceivedTransmitDataToBuffer(sizes[i]);
        assert before + (outbuf + Pending()) == before + outbuf + Pending();
        all := all + outbuf;
        if !ok {
          return;
        }
      }
    }
  }
}
