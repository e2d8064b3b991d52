/** From the coordinator's push to the client's loop: server, write buffer of one connection,
    frames and a fragmented, possibly broken stream together. */
module EndToEnd {
  import opened Types
  import opened Listener
  import opened Protocol
  import opened Jobs
  import opened Theorems
  import opened Channel
  import opened Codec

  // ----- the server and the channel of one connection -----

  datatype Net = Net(server: State, chan: Chan)

  /** A server action, or a step of the channel: its write loop, its close, the test of a push, the send
      of a reply. */
  datatype NetMove = ServerAct(action: Action) | ChanStep(step: Step)

  /** The broadcast loop's turn for the connection whose channel is in the map. */
  predicate PushesTo(s: State, a: Action, ch: ChannelId) {
    a.Deliver? && a.target == ch && ch in s.channels
  }

  function CurrentJob(s: State): Payload {
    JobMessage(Job(s.coord.jobId, s.coord.serverNonce))
  }

  /** The coordinator's push of the job is its send if it has passed the test, and succeeds
      exactly if the Go channel is still open; otherwise the event has fired.  Only the
      coordinator sends jobs. */
  predicate CanDo(cfg: Config, ch: ChannelId, n: Net, m: NetMove) {
    match m
    case ServerAct(a) =>
      && Enabled(cfg, n.server, a)
      && (PushesTo(n.server, a, ch) ==>
            if CurrentJob(n.server) in n.chan.tested then a.pushed == !n.chan.closed else n.chan.fired && !a.pushed)
    case ChanStep(step) => Possible(n.chan, step) && !(step.Send? && step.p.JobMessage?)
  }

  function Done(cfg: Config, ch: ChannelId, n: Net, m: NetMove): Net
    requires CanDo(cfg, ch, n, m)
  {
    match m
    case ServerAct(a) =>
      Net(Apply(cfg, n.server, a),
          if PushesTo(n.server, a, ch) && CurrentJob(n.server) in n.chan.tested
          then Do(n.chan, Send(CurrentJob(n.server))) else n.chan)
    case ChanStep(step) => n.(chan := Do(n.chan, step))
  }

  function NetRun(cfg: Config, ch: ChannelId, moves: seq<NetMove>): Option<Net> {
    if moves == [] then Some(Net(Init(cfg), NEW_CHAN))
    else
      var before := NetRun(cfg, ch, moves[..|moves| - 1]);
      var m := moves[|moves| - 1];
      if before.Some? && CanDo(cfg, ch, before.value, m) then Some(Done(cfg, ch, before.value, m)) else None
  }

  ghost predicate NetReachable(cfg: Config, ch: ChannelId, n: Net) {
    exists moves :: NetRun(cfg, ch, moves) == Some(n)
  }

  /** The job messages pushed on the channel are those the server's log has for it. */
  ghost predicate NetInv(cfg: Config, ch: ChannelId, n: Net) {
    Reachable(cfg, n.server) && Delivering(n.chan) && JobsIn(n.chan.pushed) == ToldTo(n.server, ch)
  }

  lemma ServerTells(cfg: Config, s: State, a: Action, ch: ChannelId)
    requires Enabled(cfg, s, a)
    ensures ToldTo(Apply(cfg, s, a), ch) ==
      ToldTo(s, ch) + if PushesTo(s, a, ch) && a.pushed then [Job(s.coord.jobId, s.coord.serverNonce)] else []
  {
    if Background(a) {
      BackgroundFrame(cfg, s, a);
    }
  }

  lemma ChannelPushes(c: Chan, step: Step)
    requires Possible(c, step)
    ensures JobsIn(Do(c, step).pushed) ==
      JobsIn(c.pushed) + if step.Send? && !c.closed && step.p.JobMessage? then [step.p.job] else []
  {
    if step.Send? {
      JobsInConcat(c.pushed, [step.p]);
    }
  }

  lemma NetStep(cfg: Config, ch: ChannelId, n: Net, m: NetMove)
    requires NetInv(cfg, ch, n) && CanDo(cfg, ch, n, m)
    ensures NetInv(cfg, ch, Done(cfg, ch, n, m))
  {
    match m
    case ServerAct(a) =>
      ReachableStep(cfg, n.server, a);
      ServerTells(cfg, n.server, a, ch);
      if PushesTo(n.server, a, ch) && CurrentJob(n.server) in n.chan.tested {
        StepDelivers(n.chan, Send(CurrentJob(n.server)));
        ChannelPushes(n.chan, Send(CurrentJob(n.server)));
      }
    case ChanStep(step) =>
      StepDelivers(n.chan, step);
      ChannelPushes(n.chan, step);
  }

  lemma {:induction false} NetAlways(cfg: Config, ch: ChannelId, moves: seq<NetMove>)
    requires NetRun(cfg, ch, moves).Some?
    ensures NetInv(cfg, ch, NetRun(cfg, ch, moves).value)
  {
    if moves == [] {
      assert Exec(cfg, []) == Some(Init(cfg));
    } else {
      NetAlways(cfg, ch, moves[..|moves| - 1]);
      NetStep(cfg, ch, NetRun(cfg, ch, moves[..|moves| - 1]).value, moves[|moves| - 1]);
    }
  }

  lemma ToldIncreases(cfg: Config, s: State, ch: ChannelId)
    requires Reachable(cfg, s)
    ensures Increasing(ToldTo(s, ch))
  {
    forall i, k | 0 <= i < k < |ToldTo(s, ch)|
      ensures ToldTo(s, ch)[i].id < ToldTo(s, ch)[k].id
    {
      JobFramesIncrease(cfg, s, ch, i, k);
    }
  }

  /** However server and channel interleave, the job frames that leave a connection are a
      prefix of those the coordinator pushed on it, so their ids strictly increase; and while
      the write loop lives those missing are in its buffer, waiting for room, or of a push that
      the close has crashed. */
  lemma WrittenJobsIncrease(cfg: Config, ch: ChannelId, moves: seq<NetMove>)
    requires NetRun(cfg, ch, moves).Some?
    ensures
      var n := NetRun(cfg, ch, moves).value;
      && JobsIn(n.chan.written) <= ToldTo(n.server, ch)
      && Increasing(JobsIn(n.chan.written))
      && (n.chan.writer != Stopped ==>
            ToldTo(n.server, ch) == JobsIn(n.chan.written) + JobsIn(n.chan.buffer + n.chan.waiting + n.chan.crashed))
  {
    NetAlways(cfg, ch, moves);
    var n := NetRun(cfg, ch, moves).value;
    WrittenJobsArePrefix(n.chan.written, n.chan.pushed);
    ToldIncreases(cfg, n.server, ch);
    if n.chan.writer != Stopped {
      JobsInSolid(n.chan.pushed);
      JobsInSolid(n.chan.written);
      JobsInSolid(Undelivered(n.chan));
      JobsInConcat(Solid(n.chan.written), Solid(Undelivered(n.chan)));
    }
  }

  // ----- frames and the stream -----

  const OP_BINARY: Byte := 2

  /** The decoding undoes the encoding of these payloads, and each fits a frame. */
  ghost predicate Faithful(ps: seq<Payload>, encode: Payload -> seq<Byte>, decode: seq<Byte> -> Payload) {
    forall i :: 0 <= i < |ps| ==> decode(encode(ps[i])) == ps[i] && |encode(ps[i])| < Pow256(LENGTH_WIDTH)
  }

  function IndexOf(ps: seq<Payload>, p: Payload): (i: nat)
    ensures p in ps ==> i < |ps| && ps[i] == p
  {
    if ps == [] || ps[0] == p then 0 else 1 + IndexOf(ps[1..], p)
  }

  /** Any payloads, up to 2^32 of them, have such an encoding. */
  lemma EncodingExists(ps: seq<Payload>) returns (encode: Payload -> seq<Byte>, decode: seq<Byte> -> Payload)
    requires |ps| <= Pow256(LENGTH_WIDTH)
    ensures Faithful(ps, encode, decode)
  {
    encode := p => LittleEndian(IndexOf(ps, p), LENGTH_WIDTH);
    decode := bs => if FromLittleEndian(bs) < |ps| then ps[FromLittleEndian(bs)] else Nothing;
    forall i | 0 <= i < |ps|
      ensures decode(encode(ps[i])) == ps[i] && |encode(ps[i])| < Pow256(LENGTH_WIDTH)
    {
      DecodeEncoded(IndexOf(ps, ps[i]), LENGTH_WIDTH);
    }
  }

  function FramesOf(ps: seq<Payload>, encode: Payload -> seq<Byte>): (fs: seq<Frame>)
    ensures |fs| == |ps|
    ensures forall i :: 0 <= i < |ps| ==> fs[i] == Frame(OP_BINARY, encode(ps[i]))
  {
    seq(|ps|, i requires 0 <= i < |ps| => Frame(OP_BINARY, encode(ps[i])))
  }

  /** What a payload is on the wire: a binary frame, opcode 2, of its encoding. */
  lemma WireBytes(ps: seq<Payload>, encode: Payload -> seq<Byte>, i: nat)
    requires i < |ps| && |encode(ps[i])| < 4_294_967_296
    ensures
      var n := |encode(ps[i])|;
      PrintFrame(FramesOf(ps, encode)[i])
        == [2, n % 256, n / 256 % 256, n / 65_536 % 256, n / 16_777_216] + encode(ps[i])
  {
    FrameBytes(Frame(OP_BINARY, encode(ps[i])));
  }

  function PayloadsOf(fs: seq<Frame>, decode: seq<Byte> -> Payload): (ps: seq<Payload>)
    ensures |ps| == |fs|
    ensures forall i :: 0 <= i < |fs| ==> ps[i] == decode(fs[i].payload)
  {
    seq(|fs|, i requires 0 <= i < |fs| => decode(fs[i].payload))
  }

  /** The payloads that a receiver decodes from the first `k` bytes of the stream. */
  function Decoded(ps: seq<Payload>, encode: Payload -> seq<Byte>, decode: seq<Byte> -> Payload, k: nat): seq<Payload>
    requires k <= |PrintAll(FramesOf(ps, encode))|
  {
    PayloadsOf(ParseAll(PrintAll(FramesOf(ps, encode))[..k]).0, decode)
  }

  lemma DecodedIsPrefix(ps: seq<Payload>, encode: Payload -> seq<Byte>, decode: seq<Byte> -> Payload, k: nat)
    requires Faithful(ps, encode, decode) && k <= |PrintAll(FramesOf(ps, encode))|
    ensures Decoded(ps, encode, decode, k) == ps[..Whole(FramesOf(ps, encode), k)]
  {
    CutStream(FramesOf(ps, encode), k);
  }

  lemma JobsOfPrefix(ps: seq<Payload>, n: nat)
    requires n <= |ps|
    ensures JobsIn(ps[..n]) <= JobsIn(ps)
  {
    assert ps == ps[..n] + ps[n..];
    JobsInConcat(ps[..n], ps[n..]);
  }

  /** Whatever the server does, however the writer is scheduled and wherever the stream breaks
      off, the jobs a client decodes are a prefix of those pushed on its connection, in order,
      without repeats or inventions, and their ids strictly increase; and from a stream that
      arrives whole it decodes all that was written. */
  lemma ClientReadsPrefix(cfg: Config, ch: ChannelId, n: Net, encode: Payload -> seq<Byte>, decode: seq<Byte> -> Payload, k: nat)
    requires NetReachable(cfg, ch, n) && Faithful(n.chan.written, encode, decode)
    requires k <= |PrintAll(FramesOf(n.chan.written, encode))|
    ensures
      var jobs := JobsIn(Decoded(n.chan.written, encode, decode, k));
      && jobs <= ToldTo(n.server, ch)
      && Increasing(jobs)
      && (k == |PrintAll(FramesOf(n.chan.written, encode))| ==> Decoded(n.chan.written, encode, decode, k) == n.chan.written)
  {
    var moves :| NetRun(cfg, ch, moves) == Some(n);
    WrittenJobsIncrease(cfg, ch, moves);
    DecodedIsPrefix(n.chan.written, encode, decode, k);
    JobsOfPrefix(n.chan.written, Whole(FramesOf(n.chan.written, encode), k));
    if k == |PrintAll(FramesOf(n.chan.written, encode))| {
      WholeOfAll(FramesOf(n.chan.written, encode));
    }
  }

  lemma {:induction false} WholeOfAll(fs: seq<Frame>)
    ensures Whole(fs, |PrintAll(fs)|) == |fs|
  {
    if fs != [] {
      WholeOfAll(fs[1..]);
    }
  }

  // ----- building runs -----

  lemma NetSnoc(cfg: Config, ch: ChannelId, moves: seq<NetMove>, n: Net, m: NetMove)
    requires NetRun(cfg, ch, moves) == Some(n) && CanDo(cfg, ch, n, m)
    ensures NetRun(cfg, ch, moves + [m]) == Some(Done(cfg, ch, n, m))
  {
    assert (moves + [m])[..|moves + [m]| - 1] == moves;
  }

  /** A server run without deliveries leaves the channel as it was made. */
  lemma {:induction false} ServerRunIsNet(cfg: Config, ch: ChannelId, acts: seq<Action>) returns (moves: seq<NetMove>)
    requires Exec(cfg, acts).Some? && forall a :: a in acts ==> !a.Deliver?
    ensures NetRun(cfg, ch, moves) == Some(Net(Exec(cfg, acts).value, NEW_CHAN))
  {
    if acts == [] {
      moves := [];
    } else {
      var front := ServerRunIsNet(cfg, ch, acts[..|acts| - 1]);
      NetSnoc(cfg, ch, front, Net(Exec(cfg, acts[..|acts| - 1]).value, NEW_CHAN), ServerAct(acts[|acts| - 1]));
      moves := front + [ServerAct(acts[|acts| - 1])];
    }
  }
}
