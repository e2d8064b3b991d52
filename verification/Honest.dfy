/** The server and a client that follows its own loop, joined by an ordered stream of job
    frames one way and submissions in any order and delay the other way. */
module Honest {
  import opened Types
  import opened Store
  import opened Listener
  import opened Protocol
  import opened Jobs
  import opened Sessions
  import opened Pairs
  import opened Nonces
  import opened Theorems
  import C = Client

  // ----- one honest submission -----

  /** The submission answers a job that was pushed on this connection, with a nonce that has
      not been accepted on it. */
  ghost predicate HonestSubmission(cfg: Config, s: State, ch: ChannelId, job: Job, p: SubmitParams) {
    && job in ToldTo(s, ch)
    && p.jobId == job.id
    && Matches(cfg, job.nonce, p)
    && !AcceptedOn(s.log.accepted, ch, p.jobId, p.clientNonce)
  }

  /** The fate of a submission that answers a job the session knows: expired if the job is not
      the latest and too old, then too frequent if it comes within a second. */
  function Timing(cfg: Config, s: State, ch: ChannelId, p: SubmitParams, t1: Instant, t2: Instant): Verdict
    requires ch in s.coord.sessions
  {
    var sess := s.coord.sessions[ch];
    if ViaHistory(s.coord.history, sess, p) && Expired(cfg.expireAfter, s.coord.history[p.jobId], t1) then TaskExpired
    else if Hasty(sess, t2) then TooFrequent
    else Accepted
  }

  /** An honest submission can fail only for its timing, or as a duplicate where the repaired
      check finds that the user has used the pair, or as invalid; and it is invalid exactly
      when it is for the session's latest job and the session holds a nonce whose digest
      differs, which takes a taint. */
  lemma HonestVerdict(cfg: Config, s: State, ch: ChannelId, job: Job, p: SubmitParams, t1: Instant, t2: Instant)
    requires JobInv(s) && ToldInv(s) && SessionPairs(s) && SessionIndexOk(s)
    requires ch in s.coord.sessions && HonestSubmission(cfg, s, ch, job, p)
    ensures
      var sess := s.coord.sessions[ch];
      VerdictOn(cfg, s, ch, p, t1, t2) ==
        if Timing(cfg, s, ch, p, t1, t2) != Accepted then Timing(cfg, s, ch, p, t1, t2)
        else if cfg.perUserNonces && HasUsed(s.store, sess.username, p.jobId, p.clientNonce) then DuplicateNonce
        else if p.jobId == sess.latestJobId && !Matches(cfg, sess.latestServerNonce, p) then InvalidResult
        else Accepted
    ensures ch !in s.log.tainted ==> VerdictOn(cfg, s, ch, p, t1, t2) != InvalidResult
  {
    var sess := s.coord.sessions[ch];
    assert InHistory(s.coord.history, job) && job.id != 0;
    assert PairOk(s.store, sess.latestJobId, sess.latestServerNonce, ch in s.log.tainted);
    assert !Recorded(sess.usedNonces, p.jobId, p.clientNonce);
    if p.jobId == sess.latestJobId && ch !in s.log.tainted {
      assert NonceOf(s.store, job.id) == Some(sess.latestServerNonce);
    }
  }

  /** What a looked-up submission leaves behind, as written. */
  lemma LookupLeavesNonce(cfg: Config, s: State, ch: ChannelId, late: SubmitParams, t0: Instant)
    requires AsWritten(cfg) && ch in s.coord.sessions && ViaHistory(s.coord.history, s.coord.sessions[ch], late)
    ensures
      var s' := AfterSubmit(cfg, s, ch, late, t0, t0);
      && s'.coord.history == s.coord.history
      && s'.log.told == s.log.told
      && ch in s'.coord.sessions
      && s'.coord.sessions[ch].latestJobId == s.coord.sessions[ch].latestJobId
      && s'.coord.sessions[ch].latestServerNonce == s.coord.history[late.jobId].nonce
      && (s'.log.accepted == s.log.accepted || s'.log.accepted == s.log.accepted + [AcceptanceOf(s, ch, late, t0)])
  {
  }

  /** As written, one submission for an older job, of whatever result and verdict, leaves an
      honest submission for the latest job failing, exactly unless the digests agree. */
  lemma LateSubmissionPoisons(cfg: Config, s: State, ch: ChannelId, late: SubmitParams, t0: Instant,
                              job: Job, p: SubmitParams, t1: Instant, t2: Instant)
    requires AsWritten(cfg) && Reachable(cfg, s)
    requires Enabled(cfg, s, Submit(ch, late, t0, t0)) && t0 <= t1 <= t2
    requires ch in s.coord.sessions && ViaHistory(s.coord.history, s.coord.sessions[ch], late)
    requires HonestSubmission(cfg, s, ch, job, p) && p.jobId == s.coord.sessions[ch].latestJobId
    ensures
      var s' := AfterSubmit(cfg, s, ch, late, t0, t0);
      var left := s.coord.history[late.jobId].nonce;
      && left != job.nonce
      && ch in s'.coord.sessions && s'.coord.sessions[ch].latestServerNonce == left
      && (VerdictOn(cfg, s', ch, p, t1, t2) == InvalidResult
          <==> !Hasty(s'.coord.sessions[ch], t2) && !Matches(cfg, left, p))
  {
    var s' := AfterSubmit(cfg, s, ch, late, t0, t0);
    ReachableInv(cfg, s);
    LookupLeavesNonce(cfg, s, ch, late, t0);
    assert s.coord.history[late.jobId].nonce != job.nonce by {
      assert InHistory(s.coord.history, job);
      HistoryNoncesDiffer(s, late.jobId, job.id);
    }
    StillKnown(cfg, s, ch, late, t0);
    AcceptedSnoc(s.log.accepted, AcceptanceOf(s, ch, late, t0), ch, "", p.jobId, p.clientNonce);
    HonestVerdict(cfg, s', ch, job, p, t1, t2);
  }

  lemma StillKnown(cfg: Config, s: State, ch: ChannelId, late: SubmitParams, t0: Instant)
    requires Inv(cfg, s) && Enabled(cfg, s, Submit(ch, late, t0, t0))
    ensures
      var s' := AfterSubmit(cfg, s, ch, late, t0, t0);
      JobInv(s') && ToldInv(s') && SessionPairs(s') && SessionIndexOk(s')
  {
    InvStep(cfg, s, Submit(ch, late, t0, t0));
  }

  lemma HistoryNoncesDiffer(s: State, i: int, j: int)
    requires JobInv(s) && i in s.coord.history && j in s.coord.history && i != j
    ensures s.coord.history[i].nonce != s.coord.history[j].nonce
  {
  }

  // ----- the composition -----

  /** `read` counts the job frames the client has read, `handled` holds the indexes of the
      requests the listener has handled. */
  datatype World = World(server: State, client: C.ClientState, read: nat, handled: set<nat>)

  /** A job frame read, a timer, a request reaching the listener, or anything else on the
      server, other connections included. */
  datatype Move =
    | ServerMove(action: Action)
    | ReadJob(nonce: string, now: Instant)
    | Timer(event: C.Event)
    | Handle(i: nat, t1: Instant, t2: Instant)

  function JobEvent(job: Job, nonce: string, now: Instant): C.Event {
    C.Incoming(true, Some(C.Message(0, C.METHOD_JOB, job)), nonce, now)
  }

  ghost predicate FreshNonce(c: C.ClientState, nonce: string) {
    forall i :: 0 <= i < |c.sent| ==> c.sent[i].params.clientNonce != nonce
  }

  /** Client nonces are drawn fresh; the connection carries only this client's requests. */
  ghost predicate CanMove(cfg: Config, ch: ChannelId, w: World, m: Move) {
    match m
    case ServerMove(a) => Enabled(cfg, w.server, a) && !(a.Submit? && a.ch == ch)
    case ReadJob(nonce, now) => w.read < |ToldTo(w.server, ch)| && now > 0 && FreshNonce(w.client, nonce)
    case Timer(e) => !e.Incoming? && C.Clocked(e) && FreshNonce(w.client, e.nonce)
    case Handle(i, t1, t2) =>
      && i < |w.client.sent| && i !in w.handled
      && Enabled(cfg, w.server, Submit(ch, w.client.sent[i].params, t1, t2))
  }

  ghost function Moved(cfg: Config, ch: ChannelId, w: World, m: Move): World
    requires CanMove(cfg, ch, w, m)
  {
    match m
    case ServerMove(a) => w.(server := Apply(cfg, w.server, a))
    case ReadJob(nonce, now) =>
      w.(client := C.React(cfg.digest, w.client, JobEvent(ToldTo(w.server, ch)[w.read], nonce, now)), read := w.read + 1)
    case Timer(e) => w.(client := C.React(cfg.digest, w.client, e))
    case Handle(i, t1, t2) =>
      w.(server := Apply(cfg, w.server, Submit(ch, w.client.sent[i].params, t1, t2)), handled := w.handled + {i})
  }

  ghost function Play(cfg: Config, ch: ChannelId, moves: seq<Move>): Option<World> {
    if moves == [] then Some(World(Init(cfg), C.NEW_CLIENT, 0, {}))
    else
      var before := Play(cfg, ch, moves[..|moves| - 1]);
      var m := moves[|moves| - 1];
      if before.Some? && CanMove(cfg, ch, before.value, m) then Some(Moved(cfg, ch, before.value, m)) else None
  }

  ghost predicate FromHandled(w: World, a: Acceptance) {
    exists i :: i in w.handled && i < |w.client.sent| && a.params == w.client.sent[i].params
  }

  /** The client has read a prefix of what was pushed, its nonces are distinct, and what was
      accepted on its connection are requests that were handled. */
  ghost predicate Linked(cfg: Config, ch: ChannelId, w: World) {
    && C.ClientInv(cfg.digest, w.client)
    && w.read <= |ToldTo(w.server, ch)| && w.client.jobs == ToldTo(w.server, ch)[..w.read]
    && (forall i, k :: 0 <= i < k < |w.client.sent| ==>
          w.client.sent[i].params.clientNonce != w.client.sent[k].params.clientNonce)
    && (forall i :: 0 <= i < |w.server.log.accepted| && w.server.log.accepted[i].ch == ch ==>
          FromHandled(w, w.server.log.accepted[i]))
  }

  ghost predicate WorldInv(cfg: Config, ch: ChannelId, w: World) {
    Inv(cfg, w.server) && Linked(cfg, ch, w)
  }

  lemma ToldOnlyGrows(cfg: Config, s: State, a: Action, ch: ChannelId)
    requires Enabled(cfg, s, a)
    ensures |ToldTo(s, ch)| <= |ToldTo(Apply(cfg, s, a), ch)|
    ensures ToldTo(Apply(cfg, s, a), ch)[..|ToldTo(s, ch)|] == ToldTo(s, ch)
  {
    if Background(a) {
      BackgroundFrame(cfg, s, a);
    }
  }

  lemma AcceptedGrowth(cfg: Config, s: State, a: Action)
    requires Enabled(cfg, s, a)
    ensures
      var s' := Apply(cfg, s, a);
      || s'.log.accepted == s.log.accepted
      || (a.Submit? && a.ch in s.coord.sessions
          && s'.log.accepted == s.log.accepted + [AcceptanceOf(s, a.ch, a.params, a.t2)])
  {
    if Background(a) {
      BackgroundFrame(cfg, s, a);
    }
  }

  lemma ServerMoveKeepsLink(cfg: Config, ch: ChannelId, w: World, w': World, last: Acceptance)
    requires Linked(cfg, ch, w) && w'.client == w.client && w'.read == w.read && w.handled <= w'.handled
    requires |ToldTo(w.server, ch)| <= |ToldTo(w'.server, ch)|
    requires ToldTo(w'.server, ch)[..|ToldTo(w.server, ch)|] == ToldTo(w.server, ch)
    requires || w'.server.log.accepted == w.server.log.accepted
             || w'.server.log.accepted == w.server.log.accepted + [last]
    requires last.ch == ch ==> FromHandled(w', last)
    ensures Linked(cfg, ch, w')
  {
    assert ToldTo(w'.server, ch)[..|ToldTo(w.server, ch)|][..w.read] == ToldTo(w'.server, ch)[..w.read];
    forall i | 0 <= i < |w'.server.log.accepted| && w'.server.log.accepted[i].ch == ch
      ensures FromHandled(w', w'.server.log.accepted[i])
    {
      if i < |w.server.log.accepted| {
        assert w'.server.log.accepted[i] == w.server.log.accepted[i];
        assert FromHandled(w, w.server.log.accepted[i]);
      }
    }
  }

  lemma ClientMoveKeepsLink(cfg: Config, ch: ChannelId, w: World, e: C.Event, w': World)
    requires Linked(cfg, ch, w) && C.Clocked(e) && FreshNonce(w.client, e.nonce)
    requires w'.server == w.server && w'.client == C.React(cfg.digest, w.client, e) && w'.handled == w.handled
    requires w.read <= w'.read <= |ToldTo(w.server, ch)| && w'.client.jobs == ToldTo(w.server, ch)[..w'.read]
    ensures Linked(cfg, ch, w')
  {
    C.ReactKeeps(cfg.digest, w.client, e);
    assert forall i :: 0 <= i < |w.client.sent| ==> w'.client.sent[i] == w.client.sent[i];
    forall i | 0 <= i < |w'.server.log.accepted| && w'.server.log.accepted[i].ch == ch
      ensures FromHandled(w', w'.server.log.accepted[i])
    {
      assert FromHandled(w, w.server.log.accepted[i]);
    }
  }

  lemma ServerMoveKeeps(cfg: Config, ch: ChannelId, w: World, a: Action, w': World, last: Acceptance)
    requires Linked(cfg, ch, w) && Enabled(cfg, w.server, a)
    requires w'.server == Apply(cfg, w.server, a) && w'.client == w.client && w'.read == w.read && w.handled <= w'.handled
    requires a.Submit? && a.ch in w.server.coord.sessions ==> last == AcceptanceOf(w.server, a.ch, a.params, a.t2)
    requires last.ch == ch ==> FromHandled(w', last)
    ensures Linked(cfg, ch, w')
  {
    ToldOnlyGrows(cfg, w.server, a, ch);
    AcceptedGrowth(cfg, w.server, a);
    ServerMoveKeepsLink(cfg, ch, w, w', last);
  }

  /** The acceptance a submit action would log; for other actions one that concerns nobody. */
  ghost function WouldLog(s: State, a: Action, other: ChannelId): Acceptance {
    if a.Submit? && a.ch in s.coord.sessions then AcceptanceOf(s, a.ch, a.params, a.t2)
    else Acceptance(other, SubmitEvent("", 0), SubmitParams(0, "", ""), "", false, false)
  }

  lemma MoveKeepsLink(cfg: Config, ch: ChannelId, w: World, m: Move)
    requires Linked(cfg, ch, w) && CanMove(cfg, ch, w, m)
    ensures Linked(cfg, ch, Moved(cfg, ch, w, m))
  {
    var w' := Moved(cfg, ch, w, m);
    match m
    case ServerMove(a) => ServerMoveKeeps(cfg, ch, w, a, w', WouldLog(w.server, a, ch + "x"));
    case ReadJob(nonce, now) =>
      var told := ToldTo(w.server, ch);
      assert told[..w.read + 1] == told[..w.read] + [told[w.read]];
      ClientMoveKeepsLink(cfg, ch, w, JobEvent(told[w.read], nonce, now), w');
    case Timer(e) => ClientMoveKeepsLink(cfg, ch, w, e, w');
    case Handle(i, t1, t2) =>
      var a := Submit(ch, w.client.sent[i].params, t1, t2);
      ServerMoveKeeps(cfg, ch, w, a, w', WouldLog(w.server, a, ch + "x"));
  }

  lemma MoveKeeps(cfg: Config, ch: ChannelId, w: World, m: Move)
    requires WorldInv(cfg, ch, w) && CanMove(cfg, ch, w, m)
    ensures WorldInv(cfg, ch, Moved(cfg, ch, w, m))
  {
    MoveKeepsLink(cfg, ch, w, m);
    match m
    case ServerMove(a) => InvStep(cfg, w.server, a);
    case ReadJob(nonce, now) =>
    case Timer(e) =>
    case Handle(i, t1, t2) => InvStep(cfg, w.server, Submit(ch, w.client.sent[i].params, t1, t2));
  }

  lemma {:induction false} WorldAlways(cfg: Config, ch: ChannelId, moves: seq<Move>)
    requires Play(cfg, ch, moves).Some?
    ensures WorldInv(cfg, ch, Play(cfg, ch, moves).value)
  {
    if moves == [] {
      InvInit(cfg);
    } else {
      WorldAlways(cfg, ch, moves[..|moves| - 1]);
      MoveKeeps(cfg, ch, Play(cfg, ch, moves[..|moves| - 1]).value, moves[|moves| - 1]);
    }
  }

  /** Every request the client has sent and the listener has not handled is honest. */
  lemma RequestsAreHonest(cfg: Config, ch: ChannelId, w: World, i: nat)
    requires Linked(cfg, ch, w) && i < |w.client.sent| && i !in w.handled
    ensures HonestSubmission(cfg, w.server, ch, w.client.jobs[w.client.sent[i].heard - 1], w.client.sent[i].params)
  {
    var r := w.client.sent[i];
    assert C.Answers(cfg.digest, w.client, r);
    assert w.client.jobs[r.heard - 1] == ToldTo(w.server, ch)[r.heard - 1];
    forall k | 0 <= k < |w.server.log.accepted| && w.server.log.accepted[k].ch == ch
      ensures !Uses(w.server.log.accepted[k], r.params.jobId, r.params.clientNonce)
    {
      assert FromHandled(w, w.server.log.accepted[k]);
    }
  }

  /** Under every interleaving of rotations, broadcasts, late and reordered submissions and
      other clients, the exact verdict that a live session gives a client that follows its
      loop: expired or too frequent exactly when it is; a duplicate only with the repaired
      check, exactly when the same user had the pair accepted on another connection; invalid
      only on a tainted session, exactly for its latest job against a nonce whose digest
      differs; accepted otherwise; and never nonexistent. */
  lemma HonestClientVerdict(cfg: Config, ch: ChannelId, moves: seq<Move>, i: nat, t1: Instant, t2: Instant)
    requires Play(cfg, ch, moves).Some?
    requires
      var w := Play(cfg, ch, moves).value;
      i < |w.client.sent| && i !in w.handled && ch in w.server.coord.sessions
    ensures
      var s := Play(cfg, ch, moves).value.server;
      var p := Play(cfg, ch, moves).value.client.sent[i].params;
      var sess := s.coord.sessions[ch];
      VerdictOn(cfg, s, ch, p, t1, t2) ==
        if Timing(cfg, s, ch, p, t1, t2) != Accepted then Timing(cfg, s, ch, p, t1, t2)
        else if cfg.perUserNonces && AcceptedFor(s.log.accepted, sess.username, p.jobId, p.clientNonce) then DuplicateNonce
        else if p.jobId == sess.latestJobId && !Matches(cfg, sess.latestServerNonce, p) then InvalidResult
        else Accepted
    ensures
      var s := Play(cfg, ch, moves).value.server;
      var p := Play(cfg, ch, moves).value.client.sent[i].params;
      && !AcceptedOn(s.log.accepted, ch, p.jobId, p.clientNonce)
      && (VerdictOn(cfg, s, ch, p, t1, t2) == InvalidResult ==> ch in s.log.tainted && !cfg.localNonce)
  {
    WorldAlways(cfg, ch, moves);
    var w := Play(cfg, ch, moves).value;
    RequestsAreHonest(cfg, ch, w, i);
    HonestVerdict(cfg, w.server, ch, w.client.jobs[w.client.sent[i].heard - 1], w.client.sent[i].params, t1, t2);
  }

  /** So with the nonce kept local, and whether or not duplicates are sought per user, a client
      whose nonces no other connection of its user has used fails only for its timing; with
      expiry off it can only be too frequent.  As written the same holds of every request but
      those for the latest job of a tainted session. */
  lemma HonestClientFailsOnlyForTiming(cfg: Config, ch: ChannelId, moves: seq<Move>, i: nat, t1: Instant, t2: Instant)
    requires Play(cfg, ch, moves).Some?
    requires
      var w := Play(cfg, ch, moves).value;
      i < |w.client.sent| && i !in w.handled && ch in w.server.coord.sessions
    ensures
      var s := Play(cfg, ch, moves).value.server;
      var p := Play(cfg, ch, moves).value.client.sent[i].params;
      var sess := s.coord.sessions[ch];
      (cfg.localNonce || p.jobId != sess.latestJobId || ch !in s.log.tainted)
      && (cfg.perUserNonces ==> !AcceptedFor(s.log.accepted, sess.username, p.jobId, p.clientNonce)) ==>
        && VerdictOn(cfg, s, ch, p, t1, t2) == Timing(cfg, s, ch, p, t1, t2)
        && (cfg.expireAfter <= 0 ==> VerdictOn(cfg, s, ch, p, t1, t2) in {Accepted, TooFrequent})
  {
    HonestClientVerdict(cfg, ch, moves, i, t1, t2);
  }
}
