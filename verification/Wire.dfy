/** wire/endian/helper.go and tcp/connection.go as code: buffers filled in place, a reader
    that is handed the stream in arbitrary chunks, a writer that fails when the connection
    takes no more. */
module Wire {
  import opened Types
  import opened Codec

  function Flat(chunks: seq<seq<Byte>>): seq<Byte> {
    if chunks == [] then [] else chunks[0] + Flat(chunks[1..])
  }

  function Min(a: nat, b: nat): nat {
    if a <= b then a else b
  }

  /** The state of a sending end: what it has sent and how many bytes it will still take. */
  datatype Sending = Sending(sent: seq<Byte>, room: nat)

  /** A write sends what there is room for, and fails exactly if that is not all. */
  function Sent(w: Sending, bs: seq<Byte>): Sending {
    Sending(w.sent + bs[..Min(|bs|, w.room)], w.room - Min(|bs|, w.room))
  }

  /** A second write that is made only if the first was whole. */
  lemma SentBoth(w: Sending, a: seq<Byte>, b: seq<Byte>)
    ensures Sent(w, a + b) == if |a| <= w.room then Sent(Sent(w, a), b) else Sent(w, a)
  {
    if |a| <= w.room {
      TakeOfConcat(a, b, Min(|a + b|, w.room));
      assert a[..|a|] == a && b[..0] == [];
      ConcatAssociates(w.sent, a, b[..Min(|b|, w.room - |a|)]);
    } else {
      TakeOfConcat(a, b, w.room);
    }
  }

  class Writer {
    var sent: seq<Byte>
    var room: nat

    ghost function View(): Sending
      reads this
    {
      Sending(sent, room)
    }

    constructor (room: nat)
      ensures View() == Sending([], room)
    {
      sent, this.room := [], room;
    }

    method Write(bs: seq<Byte>) returns (ok: bool)
      modifies this
      ensures View() == Sent(old(View()), bs) && ok == (|bs| <= old(room))
    {
      var n := Min(|bs|, room);
      sent := sent + bs[..n];
      room := room - n;
      ok := n == |bs|;
    }
  }

  /** The receiving end of a connection: the network decides the chunks. */
  class Reader {
    var chunks: seq<seq<Byte>>

    ghost function Stream(): seq<Byte>
      reads this
    {
      Flat(chunks)
    }

    constructor (chunks: seq<seq<Byte>>)
      ensures this.chunks == chunks
    {
      this.chunks := chunks;
    }

    /** `net.Conn.Read`: some bytes of the next chunk, perhaps none, or the end. */
    method Read(most: nat) returns (bs: seq<Byte>, eof: bool)
      modifies this
      ensures |bs| <= most && old(Stream()) == bs + Stream()
      ensures eof ==> bs == [] && Stream() == []
      ensures !eof && most > 0 ==> |Stream()| + |chunks| < |old(Stream())| + |old(chunks)|
    {
      if chunks == [] {
        return [], true;
      }
      var first := chunks[0];
      if |first| <= most {
        chunks := chunks[1..];
        return first, false;
      }
      ghost var before := Stream();
      assert before == first + Flat(chunks[1..]);
      chunks := chunks[0 := first[most..]];
      assert chunks[1..] == old(chunks)[1..];
      assert first == first[..most] + first[most..];
      bs, eof := first[..most], false;
    }
  }

  method CopyInto(buf: array<Byte>, n: nat, bs: seq<Byte>)
    requires n + |bs| <= buf.Length
    modifies buf
    ensures buf[..n + |bs|] == old(buf[..n]) + bs
  {
    forall i | 0 <= i < |bs| {
      buf[n + i] := bs[i];
    }
  }

  /** `io.ReadFull`: whatever the chunks, it depends only on the bytes. */
  method ReadFull(r: Reader, buf: array<Byte>) returns (e: Option<ReadError>)
    modifies r, buf
    ensures match Take(old(r.Stream()), buf.Length)
            case Got(bs, rest) => e == None && buf[..] == bs && r.Stream() == rest
            case Failed(err) => e == Some(err)
  {
    var n := 0;
    ghost var all := r.Stream();
    while n < buf.Length
      invariant 0 <= n <= buf.Length
      invariant all == buf[..n] + r.Stream()
      decreases |r.Stream()| + |r.chunks|
    {
      var bs, eof := r.Read(buf.Length - n);
      if eof {
        assert |all| == n;
        return Some(if n == 0 then Eof else UnexpectedEof);
      }
      CopyInto(buf, n, bs);
      n := n + |bs|;
    }
    assert buf[..n] == buf[..];
    assert all[..n] == buf[..] && all[n..] == r.Stream();
    e := None;
  }

  /** `PutUint16`, `PutUint32` and `PutUint64`: the low byte first. */
  method PutUint(buf: array<Byte>, value: nat)
    modifies buf
    ensures buf[..] == LittleEndian(value, buf.Length)
  {
    var v := value;
    for i := 0 to buf.Length
      invariant buf[..i] + LittleEndian(v, buf.Length - i) == LittleEndian(value, buf.Length)
    {
      ghost var done := buf[..i];
      assert LittleEndian(v, buf.Length - i) == [v % 256] + LittleEndian(v / 256, buf.Length - i - 1);
      buf[i] := v % 256;
      assert buf[..i + 1] == done + [v % 256];
      v := v / 256;
    }
    assert buf[..] == buf[..buf.Length];
  }

  /** `Uint16`, `Uint32` and `Uint64`. */
  method GetUint(buf: array<Byte>) returns (value: nat)
    ensures value == FromLittleEndian(buf[..])
  {
    value := 0;
    for i := buf.Length downto 0
      invariant value == FromLittleEndian(buf[i..])
    {
      assert buf[i..] == [buf[i]] + buf[i + 1..];
      value := buf[i] + 256 * value;
    }
    assert buf[0..] == buf[..];
  }

  method WriteUint(w: Writer, value: nat, width: nat) returns (ok: bool)
    modifies w
    ensures w.View() == Sent(old(w.View()), LittleEndian(value, width)) && ok == (width <= old(w.room))
  {
    var buf := new Byte[width];
    PutUint(buf, value);
    ok := w.Write(buf[..]);
  }

  method ReadUint(r: Reader, width: nat) returns (value: nat, e: Option<ReadError>)
    modifies r
    ensures match Take(old(r.Stream()), width)
            case Got(bs, rest) => e == None && value == FromLittleEndian(bs) && r.Stream() == rest
            case Failed(err) => e == Some(err)
  {
    value := 0;
    var buf := new Byte[width];
    e := ReadFull(r, buf);
    if e == None {
      value := GetUint(buf);
    }
  }

  /** `WriteBytes` (width 4) and `WriteShortBytes` (width 2). */
  method WritePrefixed(w: Writer, buf: seq<Byte>, width: nat) returns (ok: bool)
    modifies w
    ensures w.View() == Sent(old(w.View()), Prefixed(buf, width))
    ensures ok == (|Prefixed(buf, width)| <= old(w.room))
  {
    SentBoth(w.View(), LittleEndian(Cut(|buf|, width), width), buf);
    ok := WriteUint(w, Cut(|buf|, width), width);
    if ok {
      ok := w.Write(buf);
    }
  }

  /** `ReadBytes` (width 4) and `ReadShortBytes` (width 2). */
  method ReadPrefixed(r: Reader, width: nat) returns (bs: seq<Byte>, e: Option<ReadError>)
    modifies r
    ensures match ParsePrefixed(old(r.Stream()), width)
            case Got(value, rest) => e == None && bs == value && r.Stream() == rest
            case Failed(err) => e == Some(err)
  {
    bs := [];
    var length;
    length, e := ReadUint(r, width);
    if e == None {
      var buf := new Byte[length];
      e := ReadFull(r, buf);
      if e == None {
        bs := buf[..];
      }
    }
  }

  method WriteFrame(w: Writer, f: Frame) returns (ok: bool)
    modifies w
    ensures w.View() == Sent(old(w.View()), PrintFrame(f)) && ok == (|PrintFrame(f)| <= old(w.room))
  {
    SentBoth(w.View(), [f.opcode], Prefixed(f.payload, LENGTH_WIDTH));
    ok := w.Write([f.opcode]);
    if ok {
      ok := WritePrefixed(w, f.payload, LENGTH_WIDTH);
    }
  }

  method ReadFrame(r: Reader) returns (f: Frame, e: Option<ReadError>)
    modifies r
    ensures match ParseFrame(old(r.Stream()))
            case Got(value, rest) => e == None && f == value && r.Stream() == rest
            case Failed(err) => e == Some(err)
  {
    f := Frame(0, []);
    var code := new Byte[1];
    e := ReadFull(r, code);
    if e == None {
      var payload;
      payload, e := ReadPrefixed(r, LENGTH_WIDTH);
      f := Frame(code[0], payload);
    }
  }

  /** Frames one after the other until a write fails. */
  method WriteFrames(w: Writer, frames: seq<Frame>) returns (ok: bool)
    modifies w
    ensures w.View() == Sent(old(w.View()), PrintAll(frames)) && ok == (|PrintAll(frames)| <= old(w.room))
  {
    ghost var start := w.View();
    ok := true;
    var i := 0;
    assert frames[..0] == [] && PrintAll([]) == [];
    while ok && i < |frames|
      invariant 0 <= i <= |frames|
      invariant w.View() == Sent(start, PrintAll(frames[..i])) && ok == (|PrintAll(frames[..i])| <= start.room)
    {
      PrintedOneMore(frames, i);
      SentBoth(start, PrintAll(frames[..i]), PrintFrame(frames[i]));
      ok := WriteFrame(w, frames[i]);
      i := i + 1;
    }
    FailureIsFinal(start, frames, i);
  }

  lemma PrintedOneMore(frames: seq<Frame>, i: nat)
    requires i < |frames|
    ensures PrintAll(frames[..i + 1]) == PrintAll(frames[..i]) + PrintFrame(frames[i])
  {
    PrintAllConcat(frames[..i], [frames[i]]);
    assert frames[..i + 1] == frames[..i] + [frames[i]];
    assert [frames[i]][1..] == [];
    assert PrintAll([frames[i]]) == PrintFrame(frames[i]) + [] == PrintFrame(frames[i]);
  }

  /** What a writer has sent when it fails does not depend on the frames after. */
  lemma FailureIsFinal(w: Sending, frames: seq<Frame>, i: nat)
    requires i <= |frames| && (i < |frames| ==> |PrintAll(frames[..i])| > w.room)
    ensures Sent(w, PrintAll(frames[..i])) == Sent(w, PrintAll(frames))
    ensures |PrintAll(frames[..i])| <= w.room <==> |PrintAll(frames)| <= w.room
  {
    assert frames == frames[..i] + frames[i..];
    PrintAllConcat(frames[..i], frames[i..]);
    if i < |frames| {
      SentBoth(w, PrintAll(frames[..i]), PrintAll(frames[i..]));
    } else {
      assert frames[..i] == frames;
    }
  }

  /** The read loop: frames until the first error. */
  method ReadFrames(r: Reader) returns (got: seq<Frame>, e: ReadError)
    modifies r
    ensures got == ParseAll(old(r.Stream())).0 && e == ParseAll(old(r.Stream())).1
  {
    got := [];
    ghost var all := r.Stream();
    var f, err := ReadFrame(r);
    ghost var before := all;
    while err == None
      invariant match ParseFrame(before)
                case Got(value, rest) => err == None && f == value && r.Stream() == rest
                case Failed(x) => err == Some(x)
      invariant ParseAll(all).0 == got + ParseAll(before).0 && ParseAll(all).1 == ParseAll(before).1
      decreases |before|
    {
      ParsedIsPrinted(before);
      PrintedLength(f);
      got := got + [f];
      before := r.Stream();
      f, err := ReadFrame(r);
    }
    e := err.value;
  }

  /** The network cuts what is sent into chunks of the given sizes, and what is left is the last. */
  method Fragment(bs: seq<Byte>, sizes: seq<nat>) returns (chunks: seq<seq<Byte>>)
    ensures Flat(chunks) == bs
  {
    chunks := [bs];
    for i := |sizes| downto 0
      invariant |chunks| > 0 && Flat(chunks) == bs
    {
      var n := Min(sizes[i], |chunks[0]|);
      ghost var others := Flat(chunks[1..]);
      var first, second := chunks[0][..n], chunks[0][n..];
      assert first + second == chunks[0];
      ConcatAssociates(first, second, others);
      chunks := [first, second] + chunks[1..];
      assert chunks[1..][1..] == chunks[2..];
    }
  }

  /** Sender to receiver, over a connection that takes `room` bytes and delivers them in any
      chunks: the receiver reads exactly the frames that were sent whole, and then the error
      that the leftover bytes determine; all of them and a clean end if there was room. */
  method Relay(frames: seq<Frame>, room: nat, sizes: seq<nat>) returns (ok: bool, got: seq<Frame>, e: ReadError)
    requires AllFit(frames)
    ensures ok == (|PrintAll(frames)| <= room)
    ensures ok ==> got == frames && e == Eof
    ensures !ok ==> got == frames[..Whole(frames, room)] && e == CutError(Leftover(frames, room))
  {
    var w := new Writer(room);
    ok := WriteFrames(w, frames);
    var chunks := Fragment(w.sent, sizes);
    var r := new Reader(chunks);
    got, e := ReadFrames(r);
    if ok {
      StreamRoundTrip(frames);
      assert w.sent == PrintAll(frames);
    } else {
      CutStream(frames, room);
      assert w.sent == PrintAll(frames)[..room];
    }
  }
}
