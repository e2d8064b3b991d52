/** Server, write buffer, frames, a stream that delivers any part of what was written, and a
    client that follows its loop, all together. */
module Line {
  import opened Types
  import opened Listener
  import opened Protocol
  import opened Nonces
  import opened Channel
  import opened Codec
  import opened EndToEnd
  import opened Honest

  /** `read` counts the job messages the client has decoded, `handled` holds the indexes of the
      requests the listener has handled. */
  datatype Joint = Joint(net: Net, client: C.ClientState, read: nat, handled: set<nat>)

  /** The encoding of payloads in frames. */
  datatype Coding = Coding(encode: Payload -> seq<Byte>, decode: seq<Byte> -> Payload)

  /** A move of server and channel; a job decoded from the first `k` bytes that have arrived; a
      timer; a request reaching the listener. */
  datatype JointMove =
    | Transport(move: NetMove)
    | Decodes(k: nat, nonce: string, now: Instant)
    | Ticks(event: C.Event)
    | Handles(i: nat, t1: Instant, t2: Instant)

  /** The jobs that the first `k` bytes of what was written hold. */
  function Arrived(code: Coding, c: Chan, k: nat): seq<Job>
    requires k <= |PrintAll(FramesOf(c.written, code.encode))|
  {
    JobsIn(Decoded(c.written, code.encode, code.decode, k))
  }

  ghost predicate CanJoin(cfg: Config, ch: ChannelId, code: Coding, j: Joint, m: JointMove) {
    match m
    case Transport(move) =>
      CanDo(cfg, ch, j.net, move) && !(move.ServerAct? && move.action.Submit? && move.action.ch == ch)
    case Decodes(k, nonce, now) =>
      && Faithful(j.net.chan.written, code.encode, code.decode)
      && k <= |PrintAll(FramesOf(j.net.chan.written, code.encode))|
      && j.read < |Arrived(code, j.net.chan, k)| && now > 0 && FreshNonce(j.client, nonce)
    case Ticks(e) => !e.Incoming? && C.Clocked(e) && FreshNonce(j.client, e.nonce)
    case Handles(i, t1, t2) =>
      && i < |j.client.sent| && i !in j.handled
      && Enabled(cfg, j.net.server, Submit(ch, j.client.sent[i].params, t1, t2))
  }

  ghost function Joined(cfg: Config, ch: ChannelId, code: Coding, j: Joint, m: JointMove): Joint
    requires CanJoin(cfg, ch, code, j, m)
  {
    match m
    case Transport(move) => j.(net := Done(cfg, ch, j.net, move))
    case Decodes(k, nonce, now) =>
      j.(client := C.React(cfg.digest, j.client, JobEvent(Arrived(code, j.net.chan, k)[j.read], nonce, now)), read := j.read + 1)
    case Ticks(e) => j.(client := C.React(cfg.digest, j.client, e))
    case Handles(i, t1, t2) =>
      j.(net := Done(cfg, ch, j.net, ServerAct(Submit(ch, j.client.sent[i].params, t1, t2))), handled := j.handled + {i})
  }

  ghost function JointRun(cfg: Config, ch: ChannelId, code: Coding, moves: seq<JointMove>): Option<Joint> {
    if moves == [] then Some(Joint(Net(Init(cfg), NEW_CHAN), C.NEW_CLIENT, 0, {}))
    else
      var before := JointRun(cfg, ch, code, moves[..|moves| - 1]);
      var m := moves[|moves| - 1];
      if before.Some? && CanJoin(cfg, ch, code, before.value, m) then Some(Joined(cfg, ch, code, before.value, m)) else None
  }

  function WorldOf(j: Joint): World {
    World(j.net.server, j.client, j.read, j.handled)
  }

  /** What the client decodes next is the next job that the coordinator has pushed. */
  lemma DecodesWhatWasTold(cfg: Config, ch: ChannelId, code: Coding, n: Net, k: nat, i: nat)
    requires NetInv(cfg, ch, n) && Faithful(n.chan.written, code.encode, code.decode)
    requires k <= |PrintAll(FramesOf(n.chan.written, code.encode))| && i < |Arrived(code, n.chan, k)|
    ensures i < |ToldTo(n.server, ch)| && Arrived(code, n.chan, k)[i] == ToldTo(n.server, ch)[i]
  {
    var written := n.chan.written;
    DecodedIsPrefix(written, code.encode, code.decode, k);
    JobsOfPrefix(written, Whole(FramesOf(written, code.encode), k));
    WrittenJobsArePrefix(written, n.chan.pushed);
  }

  /** A joint move is a move of the world that sees only the coordinator's pushes, or, for the
      channel's own steps, none. */
  lemma MoveIsMove(cfg: Config, ch: ChannelId, code: Coding, j: Joint, m: JointMove) returns (moves: seq<Move>)
    requires NetInv(cfg, ch, j.net) && CanJoin(cfg, ch, code, j, m)
    ensures NetInv(cfg, ch, Joined(cfg, ch, code, j, m).net)
    ensures moves == [] ==> WorldOf(Joined(cfg, ch, code, j, m)) == WorldOf(j)
    ensures moves != [] ==>
      |moves| == 1 && CanMove(cfg, ch, WorldOf(j), moves[0])
      && Moved(cfg, ch, WorldOf(j), moves[0]) == WorldOf(Joined(cfg, ch, code, j, m))
  {
    match m
    case Transport(move) =>
      NetStep(cfg, ch, j.net, move);
      moves := if move.ServerAct? then [ServerMove(move.action)] else [];
    case Decodes(k, nonce, now) =>
      DecodesWhatWasTold(cfg, ch, code, j.net, k, j.read);
      moves := [ReadJob(nonce, now)];
    case Ticks(e) => moves := [Timer(e)];
    case Handles(i, t1, t2) =>
      NetStep(cfg, ch, j.net, ServerAct(Submit(ch, j.client.sent[i].params, t1, t2)));
      moves := [Handle(i, t1, t2)];
  }

  /** Every joint run is, for server and client, a run of the composition in which the client
      reads the coordinator's pushes: what is proved there holds over buffer, frames and stream. */
  lemma {:induction false} JointRunIsPlay(cfg: Config, ch: ChannelId, code: Coding, moves: seq<JointMove>)
    returns (plays: seq<Move>)
    requires JointRun(cfg, ch, code, moves).Some?
    ensures NetInv(cfg, ch, JointRun(cfg, ch, code, moves).value.net)
    ensures Play(cfg, ch, plays) == Some(WorldOf(JointRun(cfg, ch, code, moves).value))
  {
    if moves == [] {
      plays := [];
      NetAlways(cfg, ch, []);
    } else {
      var front, m := moves[..|moves| - 1], moves[|moves| - 1];
      plays := JointRunIsPlay(cfg, ch, code, front);
      var more := MoveIsMove(cfg, ch, code, JointRun(cfg, ch, code, front).value, m);
      if more != [] {
        assert (plays + [more[0]])[..|plays|] == plays;
        plays := plays + [more[0]];
      }
    }
  }

  /** Hence, over the whole line and under every interleaving, with the nonce kept local a client
      whose nonces no other connection of its user has used is only ever told that it is too
      frequent or expired, exactly when it is; and as written the same for every request but
      those for the latest job of a tainted session. */
  lemma ClientOnTheLine(cfg: Config, ch: ChannelId, code: Coding, moves: seq<JointMove>, i: nat, t1: Instant, t2: Instant)
    requires JointRun(cfg, ch, code, moves).Some?
    requires
      var j := JointRun(cfg, ch, code, moves).value;
      i < |j.client.sent| && i !in j.handled && ch in j.net.server.coord.sessions
    ensures
      var s := JointRun(cfg, ch, code, moves).value.net.server;
      var p := JointRun(cfg, ch, code, moves).value.client.sent[i].params;
      var sess := s.coord.sessions[ch];
      (cfg.localNonce || p.jobId != sess.latestJobId || ch !in s.log.tainted)
      && (cfg.perUserNonces ==> !AcceptedFor(s.log.accepted, sess.username, p.jobId, p.clientNonce)) ==>
        VerdictOn(cfg, s, ch, p, t1, t2) == Timing(cfg, s, ch, p, t1, t2)
  {
    var plays := JointRunIsPlay(cfg, ch, code, moves);
    HonestClientFailsOnlyForTiming(cfg, ch, plays, i, t1, t2);
  }
}
