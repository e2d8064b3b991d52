/** wire/endian/helper.go and tcp/connection.go: fixed-width little-endian integers,
    length-prefixed byte strings and frames, as functions on byte strings. */
module Codec {
  type Byte = b: int | 0 <= b < 256

  datatype Frame = Frame(opcode: Byte, payload: seq<Byte>)

  /** `io.EOF` when nothing was read, `io.ErrUnexpectedEOF` when something was. */
  datatype ReadError = Eof | UnexpectedEof

  datatype Parsed<T> = Got(value: T, rest: seq<Byte>) | Failed(error: ReadError)

  // ----- integers -----

  function Pow256(width: nat): (n: nat)
    ensures n > 0
  {
    if width == 0 then 1 else 256 * Pow256(width - 1)
  }

  function LittleEndian(n: nat, width: nat): (bs: seq<Byte>)
    ensures |bs| == width
  {
    if width == 0 then [] else [n % 256] + LittleEndian(n / 256, width - 1)
  }

  function FromLittleEndian(bs: seq<Byte>): (n: nat) {
    if bs == [] then 0 else bs[0] + 256 * FromLittleEndian(bs[1..])
  }

  /** Every value that fits a width survives encoding in it. */
  lemma {:induction false} DecodeEncoded(n: nat, width: nat)
    requires n < Pow256(width)
    ensures FromLittleEndian(LittleEndian(n, width)) == n
  {
    if width > 0 {
      DecodeEncoded(n / 256, width - 1);
      assert LittleEndian(n, width)[1..] == LittleEndian(n / 256, width - 1);
    }
  }

  /** Every byte string of a width is the encoding of exactly the value it decodes to. */
  lemma {:induction false} EncodeDecoded(bs: seq<Byte>)
    ensures FromLittleEndian(bs) < Pow256(|bs|)
    ensures LittleEndian(FromLittleEndian(bs), |bs|) == bs
  {
    if bs != [] {
      EncodeDecoded(bs[1..]);
      LowestByte(bs[0], FromLittleEndian(bs[1..]));
      assert bs == [bs[0]] + bs[1..];
    }
  }

  lemma LowestByte(b: Byte, v: nat)
    ensures (b + 256 * v) % 256 == b && (b + 256 * v) / 256 == v
  {
  }

  // ----- byte strings -----

  /** `io.ReadFull` on the bytes that are still to come. */
  function Take(bs: seq<Byte>, n: nat): Parsed<seq<Byte>> {
    if n <= |bs| then Got(bs[..n], bs[n..]) else Failed(if bs == [] then Eof else UnexpectedEof)
  }

  /** Go's conversion of a length to an unsigned integer of `width` bytes. */
  function Cut(length: nat, width: nat): (n: nat)
    ensures n <= length && n < Pow256(width)
    ensures n == length <==> length < Pow256(width)
  {
    CutSmaller(length, Pow256(width));
    length % Pow256(width)
  }

  lemma CutSmaller(length: nat, p: nat)
    requires p > 0
    ensures length % p <= length && length % p < p
    ensures length % p == length <==> length < p
  {
  }

  /** The length is cut to the prefix's width, the bytes are not. */
  function Prefixed(buf: seq<Byte>, width: nat): seq<Byte> {
    LittleEndian(Cut(|buf|, width), width) + buf
  }

  function ParsePrefixed(bs: seq<Byte>, width: nat): Parsed<seq<Byte>> {
    match Take(bs, width)
    case Failed(e) => Failed(e)
    case Got(length, rest) => Take(rest, FromLittleEndian(length))
  }

  /** Reading back a length-prefixed write yields the first `length mod 256^width` bytes and
      leaves the others in the stream; so it round-trips exactly when the length fits. */
  lemma PrefixRoundTrip(buf: seq<Byte>, width: nat, tail: seq<Byte>)
    ensures
      var n := |buf| % Pow256(width);
      n <= |buf| && ParsePrefixed(Prefixed(buf, width) + tail, width) == Got(buf[..n], buf[n..] + tail)
    ensures ParsePrefixed(Prefixed(buf, width) + tail, width) == Got(buf, tail) <==> |buf| < Pow256(width)
  {
    var n := Cut(|buf|, width);
    var head := LittleEndian(n, width);
    DecodeEncoded(n, width);
    ConcatAssociates(head, buf, tail);
    TakeHead(head, buf + tail);
    TakeWithin(buf, tail, n);
    if n == |buf| {
      assert buf[..n] == buf && buf[n..] + tail == tail;
    }
  }

  lemma TakeHead(head: seq<Byte>, rest: seq<Byte>)
    ensures Take(head + rest, |head|) == Got(head, rest)
  {
  }

  lemma TakeWithin(buf: seq<Byte>, tail: seq<Byte>, n: nat)
    requires n <= |buf|
    ensures Take(buf + tail, n) == Got(buf[..n], buf[n..] + tail)
  {
    assert (buf + tail)[..n] == buf[..n] && (buf + tail)[n..] == buf[n..] + tail;
  }

  /** A length-prefixed string that parses is the one that was written. */
  lemma ParsedPrefixIsWritten(bs: seq<Byte>, width: nat)
    requires ParsePrefixed(bs, width).Got?
    ensures |ParsePrefixed(bs, width).value| < Pow256(width)
    ensures bs == Prefixed(ParsePrefixed(bs, width).value, width) + ParsePrefixed(bs, width).rest
  {
    var head, body := bs[..width], bs[width..];
    var n := FromLittleEndian(head);
    var value, rest := body[..n], body[n..];
    EncodeDecoded(head);
    assert Prefixed(value, width) == head + value;
    Split(bs, width);
    Split(body, n);
    ConcatAssociates(head, value, rest);
  }

  lemma Split(bs: seq<Byte>, n: nat)
    requires n <= |bs|
    ensures bs == bs[..n] + bs[n..]
  {
  }

  lemma ConcatAssociates(a: seq<Byte>, b: seq<Byte>, c: seq<Byte>)
    ensures (a + b) + c == a + (b + c)
  {
  }

  // ----- frames -----

  const LENGTH_WIDTH: nat := 4

  predicate Fits(f: Frame) {
    |f.payload| < Pow256(LENGTH_WIDTH)
  }

  function PrintFrame(f: Frame): seq<Byte> {
    [f.opcode] + Prefixed(f.payload, LENGTH_WIDTH)
  }

  function ParseFrame(bs: seq<Byte>): Parsed<Frame> {
    match Take(bs, 1)
    case Failed(e) => Failed(e)
    case Got(code, rest) =>
      match ParsePrefixed(rest, LENGTH_WIDTH)
      case Failed(e) => Failed(e)
      case Got(payload, rest') => Got(Frame(code[0], payload), rest')
  }

  /** The bytes on the wire: the opcode, the length of the payload in four bytes with the lowest
      first, the payload. */
  lemma FrameBytes(f: Frame)
    requires |f.payload| < 4_294_967_296
    ensures Fits(f)
    ensures PrintFrame(f) == [f.opcode, |f.payload| % 256, |f.payload| / 256 % 256, |f.payload| / 65_536 % 256,
                              |f.payload| / 16_777_216] + f.payload
  {
    var n := |f.payload|;
    FourBytes(n);
    assert PrintFrame(f) == [f.opcode] + (LittleEndian(n, 4) + f.payload);
  }

  lemma FourBytes(n: nat)
    requires n < 4_294_967_296
    ensures Pow256(4) == 4_294_967_296
    ensures LittleEndian(n, 4) == [n % 256, n / 256 % 256, n / 65_536 % 256, n / 16_777_216]
  {
    assert Pow256(4) == 256 * (256 * (256 * (256 * Pow256(0))));
    assert n / 256 / 256 == n / 65_536 && n / 65_536 / 256 == n / 16_777_216;
    assert LittleEndian(n / 16_777_216, 1) == [n / 16_777_216];
    assert LittleEndian(n / 65_536, 2) == [n / 65_536 % 256] + LittleEndian(n / 16_777_216, 1);
    assert LittleEndian(n / 256, 3) == [n / 256 % 256] + LittleEndian(n / 65_536, 2);
  }

  lemma FrameRoundTrip(f: Frame, tail: seq<Byte>)
    requires Fits(f)
    ensures ParseFrame(PrintFrame(f) + tail) == Got(f, tail)
  {
    var rest := Prefixed(f.payload, LENGTH_WIDTH) + tail;
    ConcatAssociates([f.opcode], Prefixed(f.payload, LENGTH_WIDTH), tail);
    TakeHead([f.opcode], rest);
    PrefixRoundTrip(f.payload, LENGTH_WIDTH, tail);
  }

  /** What parses is what was printed: there is no second encoding of a frame. */
  lemma ParsedIsPrinted(bs: seq<Byte>)
    requires ParseFrame(bs).Got?
    ensures Fits(ParseFrame(bs).value)
    ensures bs == PrintFrame(ParseFrame(bs).value) + ParseFrame(bs).rest
  {
    ParsedPrefixIsWritten(bs[1..], LENGTH_WIDTH);
    assert bs == [bs[0]] + bs[1..];
  }

  // ----- streams -----

  function PrintAll(fs: seq<Frame>): seq<Byte> {
    if fs == [] then [] else PrintFrame(fs[0]) + PrintAll(fs[1..])
  }

  lemma {:induction false} PrintAllConcat(a: seq<Frame>, b: seq<Frame>)
    ensures PrintAll(a + b) == PrintAll(a) + PrintAll(b)
  {
    if a == [] {
      assert a + b == b;
    } else {
      assert (a + b)[1..] == a[1..] + b;
      PrintAllConcat(a[1..], b);
    }
  }

  /** Repeated `ReadFrame` until it fails: the frames and the error. */
  function ParseAll(bs: seq<Byte>): (seq<Frame>, ReadError)
    decreases |bs|
  {
    match ParseFrame(bs)
    case Failed(e) => ([], e)
    case Got(f, rest) =>
      if |rest| < |bs| then
        var (fs, e) := ParseAll(rest);
        ([f] + fs, e)
      else ([], Eof)
  }

  lemma PrintedLength(f: Frame)
    ensures |PrintFrame(f)| == 1 + LENGTH_WIDTH + |f.payload|
  {
  }

  ghost predicate AllFit(fs: seq<Frame>) {
    forall i :: 0 <= i < |fs| ==> Fits(fs[i])
  }

  lemma ParseAllStep(f: Frame, tail: seq<Byte>)
    requires Fits(f)
    ensures ParseAll(PrintFrame(f) + tail) == ([f] + ParseAll(tail).0, ParseAll(tail).1)
  {
    FrameRoundTrip(f, tail);
    PrintedLength(f);
  }

  /** How a stream ends that breaks off `k` bytes into a frame.  Each read of a part that has
      not begun ends as cleanly as a stream between frames: after the opcode, and after the
      length of a payload that is not empty. */
  function CutError(k: nat): ReadError {
    if k == 0 || k == 1 || k == 1 + LENGTH_WIDTH then Eof else UnexpectedEof
  }

  /** A frame cut short anywhere does not parse. */
  lemma CutFrameFails(f: Frame, k: nat)
    requires Fits(f) && k < |PrintFrame(f)|
    ensures ParseFrame(PrintFrame(f)[..k]) == Failed(CutError(k))
  {
    var bs := PrintFrame(f)[..k];
    if 1 + LENGTH_WIDTH <= k {
      assert bs[1..][..LENGTH_WIDTH] == LittleEndian(|f.payload|, LENGTH_WIDTH);
      DecodeEncoded(|f.payload|, LENGTH_WIDTH);
    }
  }

  lemma {:induction false} StreamRoundTrip(fs: seq<Frame>)
    requires AllFit(fs)
    ensures ParseAll(PrintAll(fs)) == (fs, Eof)
  {
    if fs != [] {
      StreamRoundTrip(fs[1..]);
      ParseAllStep(fs[0], PrintAll(fs[1..]));
      assert fs == [fs[0]] + fs[1..];
    }
  }

  /** The number of frames that lie wholly within the first `k` bytes of the stream. */
  function Whole(fs: seq<Frame>, k: nat): (n: nat)
    ensures n <= |fs|
  {
    if fs == [] || k < |PrintFrame(fs[0])| then 0 else 1 + Whole(fs[1..], k - |PrintFrame(fs[0])|)
  }

  /** The bytes that the cut leaves of the frame after those. */
  function Leftover(fs: seq<Frame>, k: nat): nat {
    if fs == [] || k < |PrintFrame(fs[0])| then k else Leftover(fs[1..], k - |PrintFrame(fs[0])|)
  }

  /** Cutting a stream anywhere yields exactly the frames that are whole, in order, and then
      the error that the leftover bytes determine; never a frame that was not sent. */
  lemma {:induction false} CutStream(fs: seq<Frame>, k: nat)
    requires AllFit(fs) && k <= |PrintAll(fs)|
    ensures ParseAll(PrintAll(fs)[..k]) == (fs[..Whole(fs, k)], CutError(Leftover(fs, k)))
  {
    if fs == [] {
      ParseNothing();
    } else {
      var n := |PrintFrame(fs[0])|;
      if k < n {
        CutWithin(fs[0], PrintAll(fs[1..]), k);
      } else {
        CutStream(fs[1..], k - n);
        CutBehind(fs[0], PrintAll(fs[1..]), k);
        CutOneFurther(fs, k, ParseAll(PrintAll(fs[1..])[..k - n]), ParseAll(PrintAll(fs)[..k]));
      }
    }
  }

  lemma ParseNothing()
    ensures ParseAll([]) == ([], CutError(0))
  {
  }

  lemma CutOneFurther(fs: seq<Frame>, k: nat, others: (seq<Frame>, ReadError), all: (seq<Frame>, ReadError))
    requires fs != [] && |PrintFrame(fs[0])| <= k && all == ([fs[0]] + others.0, others.1)
    requires
      var j := k - |PrintFrame(fs[0])|;
      others == (fs[1..][..Whole(fs[1..], j)], CutError(Leftover(fs[1..], j)))
    ensures all == (fs[..Whole(fs, k)], CutError(Leftover(fs, k)))
  {
    TakeOfCons(fs, Whole(fs[1..], k - |PrintFrame(fs[0])|));
  }

  lemma CutWithin(f: Frame, others: seq<Byte>, k: nat)
    requires Fits(f) && k < |PrintFrame(f)|
    ensures ParseAll((PrintFrame(f) + others)[..k]) == ([], CutError(k))
  {
    TakeOfConcat(PrintFrame(f), others, k);
    CutFrameFails(f, k);
  }

  lemma CutBehind(f: Frame, others: seq<Byte>, k: nat)
    requires Fits(f) && |PrintFrame(f)| <= k <= |PrintFrame(f)| + |others|
    ensures
      var (fs, e) := ParseAll(others[..k - |PrintFrame(f)|]);
      ParseAll((PrintFrame(f) + others)[..k]) == ([f] + fs, e)
  {
    TakeOfConcat(PrintFrame(f), others, k);
    ParseAllStep(f, others[..k - |PrintFrame(f)|]);
  }

  lemma TakeOfCons(fs: seq<Frame>, n: nat)
    requires n < |fs|
    ensures fs[..n + 1] == [fs[0]] + fs[1..][..n]
  {
  }

  lemma TakeOfConcat(a: seq<Byte>, b: seq<Byte>, k: nat)
    requires k <= |a| + |b|
    ensures (a + b)[..k] == if k < |a| then a[..k] else a + b[..k - |a|]
  {
  }
}
