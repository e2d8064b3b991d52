/** app/server: the coordinator, its sessions, the acceptor, the listener and the consumer
    as objects updated in place.  Each method is proved to take the abstract state exactly
    through the actions of the transition system that it stands for. */
module Coordination {
  import opened Types
  import opened Store
  import opened Queue
  import opened Listener
  import opened Protocol

  class LiveSession {
    const channelId: ChannelId
    const username: string
    var latestJobId: int
    var latestServerNonce: string
    var lastSubmitAt: Instant
    var usedNonces: map<int, set<string>>

    function View(): Session
      reads this
    {
      Session(channelId, username, latestJobId, latestServerNonce, lastSubmitAt, usedNonces)
    }

    constructor (ch: ChannelId, user: string)
      ensures View() == NewSession(ch, user)
    {
      channelId, username := ch, user;
      latestJobId, latestServerNonce, lastSubmitAt, usedNonces := 0, "", ZERO_TIME, map[];
    }

    method Assign(job: Job)
      modifies this
      ensures View() == old(View()).(latestJobId := job.id, latestServerNonce := job.nonce)
    {
      latestJobId := job.id;
      latestServerNonce := job.nonce;
    }

    method Adopt(us: UserState)
      modifies this
      ensures View() == Restored(old(View()), us)
    {
      latestJobId := us.latestJobId;
      latestServerNonce := us.latestNonce;
      lastSubmitAt := us.lastSubmit;
    }

    /** The checks of `handleSubmit` in their order, with what each leaves in the session. */
    method Judge(cfg: Config, history: map<int, JobRecord>, ghost store: StoreState,
                 p: SubmitParams, t1: Instant, t2: Instant) returns (v: Verdict)
      requires AsWritten(cfg)
      modifies this
      ensures v == Decide(cfg, history, store, old(View()), p, t1, t2)
      ensures
        var digest := cfg.digest(NonceFor(history, old(View()), p) + p.clientNonce);
        && (v == Accepted && NoCapitals(digest) ==> Capitalised(digest, p.result))
        && (v == InvalidResult ==> p.result != digest)
      ensures View() == SessionAfter(cfg, history, old(View()), p, v, t2)
    {
      if p.jobId != latestJobId {
        if p.jobId in history {
          var rec := history[p.jobId];
          latestServerNonce := rec.nonce;
          if cfg.expireAfter > 0 && t1 - rec.createdAt > cfg.expireAfter { return TaskExpired; }
        } else {
          return NoSuchTask;
        }
      }
      if lastSubmitAt != ZERO_TIME && t2 - lastSubmitAt < SECOND { return TooFrequent; }
      var seen := if p.jobId in usedNonces then usedNonces[p.jobId] else {};
      if p.clientNonce in seen {
        usedNonces := usedNonces[p.jobId := seen];
        return DuplicateNonce;
      }
      var computed := cfg.digest(latestServerNonce + p.clientNonce);
      if NoCapitals(computed) {
        FoldIsCapitals(computed, p.result);
      }
      if !EqualFold(computed, p.result) {
        usedNonces := usedNonces[p.jobId := seen];
        return InvalidResult;
      }
      usedNonces := usedNonces[p.jobId := seen + {p.clientNonce}];
      lastSubmitAt := t2;
      v := Accepted;
    }
  }

  // ----- messages -----

  /** A response; `error` is absent where the result is true. */
  datatype Response = Response(id: int, error: Option<string>)

  function ErrorText(v: Verdict): Option<string> {
    match v
    case Accepted => None
    case NoSuchTask => Some("Task does not exist")
    case TaskExpired => Some("Task expired")
    case TooFrequent => Some("Submission too frequent")
    case DuplicateNonce => Some("Duplicate submission")
    case InvalidResult => Some("Invalid result")
  }

  /** The authorize request as the acceptor decodes it; `None` stands for what does not
      decode, and in `params` for a missing value. */
  datatype AuthRequest = AuthRequest(id: Option<int>, methodName: string, params: Option<Option<string>>)

  datatype FirstFrame = FirstFrame(binary: bool, request: Option<AuthRequest>)

  datatype AcceptResult = Refused(reason: string) | Joined(ch: ChannelId, reply: Response)

  datatype Login = Login(id: int, username: string)

  /** The request's id and user, if the first frame is a well-formed authorize request. */
  function Authorized(frame: Option<FirstFrame>): Option<Login> {
    if frame.None? || !frame.value.binary || frame.value.request.None? then None
    else
      var r := frame.value.request.value;
      if r.methodName != "authorize" || r.params.None? || r.id.None? || r.params.value.None? then None
      else if r.params.value.value == "" then None
      else Some(Login(r.id.value, r.params.value.value))
  }

  /** Exactly the binary frames with a decodable authorize request, an id and a user name that is
      not empty let somebody in, under that id and that name. */
  lemma AuthorizedIff(frame: Option<FirstFrame>, id: int, user: string)
    ensures Authorized(frame) == Some(Login(id, user))
      <==> user != "" && frame == Some(FirstFrame(true, Some(AuthRequest(Some(id), "authorize", Some(Some(user))))))
  {
    if Authorized(frame) == Some(Login(id, user)) {
      var req := frame.value.request.value;
      assert req == AuthRequest(Some(id), "authorize", Some(Some(user)));
      assert frame.value == FirstFrame(true, Some(req));
    }
  }

  /** A request as the listener decodes it; `params` is absent where they do not decode. */
  datatype Request = Undecodable | Request(id: Option<int>, methodName: string, params: Option<SubmitParams>)

  /** A submission that reaches `handleSubmit`. */
  predicate Submits(req: Request) {
    req.Request? && req.methodName == "submit" && req.id.Some? && req.params.Some?
  }

  /** The id under which a request is answered, if it is. */
  function AnsweredAs(req: Request): Option<int> {
    if req.Request? && req.methodName == "submit" then req.id else None
  }

  function ReplyTo(cfg: Config, s: State, ch: ChannelId, req: Request, t1: Instant, t2: Instant): Option<Response> {
    if AnsweredAs(req).None? then None
    else if req.params.None? then Some(Response(req.id.value, Some("Invalid result")))
    else Some(Response(req.id.value, ErrorText(VerdictOn(cfg, s, ch, req.params.value, t1, t2))))
  }

  function AfterRequest(cfg: Config, s: State, ch: ChannelId, req: Request, t1: Instant, t2: Instant): State {
    if Submits(req) then AfterSubmit(cfg, s, ch, req.params.value, t1, t2) else s
  }

  /** A response without an error is the answer to exactly those requests that add an acceptance. */
  lemma SuccessMeansAccepted(cfg: Config, s: State, ch: ChannelId, req: Request, t1: Instant, t2: Instant)
    ensures
      var reply, s' := ReplyTo(cfg, s, ch, req, t1, t2), AfterRequest(cfg, s, ch, req, t1, t2);
      && (reply.Some? && reply.value.error == None <==> |s'.log.accepted| == |s.log.accepted| + 1)
      && (!(reply.Some? && reply.value.error == None) ==> s'.log.accepted == s.log.accepted && s'.store == s.store)
  {
  }

  predicate Holds(sess: Session, job: Job) {
    sess.latestJobId == job.id && sess.latestServerNonce == job.nonce
  }

  /** The parts of the state that the listener's own objects carry. */
  lemma SubmitParts(cfg: Config, s: State, ch: ChannelId, p: SubmitParams, t1: Instant, t2: Instant)
    requires ch in s.coord.sessions
    ensures
      var v := VerdictOn(cfg, s, ch, p, t1, t2);
      var sess' := SessionAfter(cfg, s.coord.history, s.coord.sessions[ch], p, v, t2);
      var s' := AfterSubmit(cfg, s, ch, p, t1, t2);
      && s'.coord == Coord(s.coord.sessions[ch := sess'], s.coord.jobId, s.coord.serverNonce, s.coord.history)
      && s'.store == (if v == Accepted then StoreAfter(s.store, sess', p) else s.store)
      && s'.queue == (if v == Accepted then Published(s.queue, SubmitEvent(sess'.username, t2)) else s.queue)
      && s'.channels == s.channels && s'.log.told == s.log.told
  {
  }

  /** The job pushed on a connection by a broadcast that has still to come to those in `todo`. */
  function Tells(s: State, closed: set<ChannelId>, todo: set<ChannelId>, ch: ChannelId): seq<Job> {
    if ch in s.coord.sessions && ch in s.channels && ch !in closed && ch !in todo
    then [Job(s.coord.jobId, s.coord.serverNonce)] else []
  }

  /** A broadcast from `s` has come to `s'`, with the sessions in `todo` still to be told. */
  ghost predicate Underway(cfg: Config, s: State, closed: set<ChannelId>, acts: seq<Action>, s': State, todo: set<ChannelId>) {
    ExecFrom(cfg, s, acts) == Some(s') && Reaching(s, closed, s', todo)
  }

  ghost predicate Reaching(s: State, closed: set<ChannelId>, s': State, todo: set<ChannelId>) {
    && s'.phase.Broadcasting? && s'.phase.pending == todo && s'.channels == s.channels
    && s'.coord.sessions.Keys == s.coord.sessions.Keys && todo <= s.coord.sessions.Keys
    && s'.coord.jobId == s.coord.jobId && s'.coord.serverNonce == s.coord.serverNonce
    && (forall ch :: ch in s'.coord.sessions && ch !in todo ==>
          Holds(s'.coord.sessions[ch], Job(s.coord.jobId, s.coord.serverNonce)))
    && (forall ch :: ToldTo(s', ch) == ToldTo(s, ch) + Tells(s, closed, todo, ch))
  }

  lemma BroadcastBegins(cfg: Config, s: State, closed: set<ChannelId>)
    requires s.phase == Saved
    ensures Underway(cfg, s, closed, [Snapshot], AfterSnapshot(s), s.coord.sessions.Keys)
  {
    ExecFromSnoc(cfg, s, [], s, Snapshot);
    assert [] + [Snapshot] == [Snapshot];
  }

  lemma BroadcastGoesOn(cfg: Config, s: State, closed: set<ChannelId>, acts: seq<Action>, s': State,
                        todo: set<ChannelId>, ch: ChannelId, ok: bool)
    requires Underway(cfg, s, closed, acts, s', todo) && ch in todo && ok == (ch in s.channels && ch !in closed)
    ensures Underway(cfg, s, closed, acts + [Deliver(ch, ok)], AfterDeliver(s', ch, ok), todo - {ch})
  {
    ExecFromSnoc(cfg, s, acts, s', Deliver(ch, ok));
    StillToTell(s, closed, s', todo, ch, ok);
  }

  lemma StillToTell(s: State, closed: set<ChannelId>, s': State, todo: set<ChannelId>, ch: ChannelId, ok: bool)
    requires Reaching(s, closed, s', todo) && ch in todo && ok == (ch in s.channels && ch !in closed)
    ensures Reaching(s, closed, AfterDeliver(s', ch, ok), todo - {ch})
  {
    DeliveredTo(s', ch, ok);
    var s'' := AfterDeliver(s', ch, ok);
    forall c
      ensures ToldTo(s'', c) == ToldTo(s, c) + Tells(s, closed, todo - {ch}, c)
    {
      assert ToldTo(s', c) == ToldTo(s, c) + Tells(s, closed, todo, c);
    }
  }

  lemma BroadcastEnds(cfg: Config, s: State, closed: set<ChannelId>, acts: seq<Action>, s': State)
    requires Underway(cfg, s, closed, acts, s', {})
    ensures ExecFrom(cfg, s, acts + [EndBroadcast]) == Some(s'.(phase := Idle))
  {
    ExecFromSnoc(cfg, s, acts, s', EndBroadcast);
  }

  lemma DeliveredTo(s: State, ch: ChannelId, pushed: bool)
    requires s.phase.Broadcasting? && ch in s.coord.sessions
    ensures
      var s' := AfterDeliver(s, ch, pushed);
      var job := Job(s.coord.jobId, s.coord.serverNonce);
      && s'.coord.sessions.Keys == s.coord.sessions.Keys && Holds(s'.coord.sessions[ch], job)
      && (forall c :: c in s.coord.sessions && c != ch ==> s'.coord.sessions[c] == s.coord.sessions[c])
      && (forall c :: ToldTo(s', c) ==
            if c == ch && pushed && ch in s.channels then ToldTo(s, c) + [job] else ToldTo(s, c))
  {
  }

  /** One rotation is four actions: the clock is read once for the memory, once for the store. */
  lemma RotationIsARun(cfg: Config, s: State, nonce: string, t1: Instant, t2: Instant)
    requires s.phase == Idle && nonce != "" && nonce !in s.log.nonces && s.clock <= t1 <= t2
    ensures ExecFrom(cfg, s, [Tick(t1), Rotate(nonce), Tick(t2), Action.SaveJob]) == Some(RotatedAndSaved(s, nonce, t1, t2))
  {
    var acts := [];
    ExecFromSnoc(cfg, s, acts, s, Tick(t1));
    acts := acts + [Tick(t1)];
    ExecFromSnoc(cfg, s, acts, s.(clock := t1), Rotate(nonce));
    acts := acts + [Rotate(nonce)];
    ExecFromSnoc(cfg, s, acts, AfterRotate(s.(clock := t1), nonce), Tick(t2));
    acts := acts + [Tick(t2)];
    ExecFromSnoc(cfg, s, acts, AfterRotate(s.(clock := t1), nonce).(clock := t2), Action.SaveJob);
    assert acts + [Action.SaveJob] == [Tick(t1), Rotate(nonce), Tick(t2), Action.SaveJob];
  }

  function RotatedAndSaved(s: State, nonce: string, t1: Instant, t2: Instant): State {
    AfterSaveJob(AfterRotate(s.(clock := t1), nonce).(clock := t2))
  }

  /** What the coordinator sees of the TCP server: the channel map, with which of the channels
      are closed and the jobs pushed on each. */
  class Pusher {
    var channels: set<ChannelId>
    var closed: set<ChannelId>
    var told: map<ChannelId, seq<Job>>

    /** `before` is what earlier processes have pushed on their connections. */
    constructor (before: map<ChannelId, seq<Job>>)
      ensures channels == {} && closed == {} && told == before
    {
      channels, closed, told := {}, {}, before;
    }

    /** Fails exactly for a channel that is not in the map or is closed. */
    method Push(ch: ChannelId, job: Job) returns (ok: bool)
      modifies this`told
      ensures ok == (ch in channels && ch !in closed)
      ensures told == if ok then old(told)[ch := ToldIn(old(told), ch) + [job]] else old(told)
    {
      if ch !in channels { return false; }
      if ch in closed { return false; }
      told := told[ch := ToldIn(told, ch) + [job]];
      ok := true;
    }
  }

  class Coordinator {
    const cfg: Config
    const srv: Pusher
    const store: MemoryStore
    const mq: MemoryQueue
    var sessions: map<ChannelId, LiveSession>
    var jobId: int
    var serverNonce: string
    var history: map<int, JobRecord>

    ghost predicate Valid()
      reads this, sessions.Values
    {
      forall ch :: ch in sessions ==> sessions[ch].channelId == ch
    }

    ghost function View(): Coord
      reads this, sessions.Values
    {
      Coord(map ch | ch in sessions :: sessions[ch].View(), jobId, serverNonce, history)
    }

    /** The object stands for the coordinator, store, queue and channel map of the abstract
        state, and what it has pushed is what the log says. */
    ghost predicate Abstracts(s: State)
      reads this, sessions.Values, store, mq, srv
    {
      && Valid() && View() == s.coord && store.View() == s.store && mq.View() == s.queue
      && srv.channels == s.channels && srv.told == s.log.told
    }

    constructor (cfg: Config, srv: Pusher, store: MemoryStore, mq: MemoryQueue)
      ensures this.cfg == cfg && this.srv == srv && this.store == store && this.mq == mq
      ensures Valid() && View() == FRESH_COORD && fresh(sessions.Values)
    {
      this.cfg, this.srv, this.store, this.mq := cfg, srv, store, mq;
      sessions, jobId, serverNonce, history := map[], 0, "", map[];
    }

    method RegisterSession(ghost s: State, ch: ChannelId, user: string)
      requires Abstracts(s)
      modifies this`sessions
      ensures Abstracts(AfterRegister(s, ch, user))
      ensures ch in sessions && fresh(sessions[ch]) && sessions[ch].username == user
      ensures sessions == old(sessions)[ch := sessions[ch]]
    {
      var session := new LiveSession(ch, user);
      sessions := sessions[ch := session];
    }

    method UnregisterSession(ghost s: State, ch: ChannelId)
      requires Abstracts(s)
      modifies this`sessions
      ensures Abstracts(AfterDisconnect(s, ch)) && sessions == old(sessions) - {ch}
    {
      sessions := sessions - {ch};
    }

    /** `t1` and `t2` are the two readings of the clock, in memory and for the store. */
    method RotateJob(ghost s: State, nonce: string, t1: Instant, t2: Instant)
      requires Abstracts(s)
      modifies this`jobId, this`serverNonce, this`history, store
      ensures Abstracts(RotatedAndSaved(s, nonce, t1, t2))
    {
      Mint(s.(clock := t1), nonce, t1);
      SaveCurrent(AfterRotate(s.(clock := t1), nonce).(clock := t2), t2);
    }

    /** The locked part of a rotation. */
    method Mint(ghost s: State, nonce: string, now: Instant)
      requires Abstracts(s) && now == s.clock
      modifies this`jobId, this`serverNonce, this`history
      ensures Abstracts(AfterRotate(s, nonce))
    {
      jobId := jobId + 1;
      serverNonce := nonce;
      history := history[jobId := JobRecord(serverNonce, now)];
    }

    /** The save that follows it. */
    method SaveCurrent(ghost s: State, now: Instant)
      requires Abstracts(s) && now == s.clock
      modifies store
      ensures Abstracts(AfterSaveJob(s))
    {
      store.SaveJob(jobId, serverNonce, now);
    }

    /** The loop over the restored records, in whatever order the map yields them. */
    method Merge(hist: map<int, JobRecord>)
      modifies this`history
      ensures history == old(history) + hist
    {
      var todo := hist.Keys;
      while exists i :: i in todo
        invariant todo <= hist.Keys
        invariant history == old(history) + (map i | i in hist.Keys - todo :: hist[i])
        decreases |todo|
      {
        var i :| i in todo;
        history := history[i := hist[i]];
        todo := todo - {i};
      }
      assert history == old(history) + hist;
    }

    method RestoreLatestJob(ghost s: State)
      requires Abstracts(s)
      modifies this`jobId, this`serverNonce, this`history
      ensures Abstracts(AfterRestoreLatest(s))
    {
      var id, rec := store.LoadLatestJob();
      if id > 0 {
        jobId := id;
        serverNonce := rec.nonce;
        history := history[id := rec];
      }
    }

    /** The whole window, or with the repair nothing where it is 0. */
    method LoadHistory(now: Instant) returns (hist: map<int, JobRecord>)
      ensures hist == if cfg.latestOnlyAtZero && cfg.historyWindow == 0 then map[]
                      else HistorySince(store.View(), cfg.historyWindow, now)
    {
      if cfg.latestOnlyAtZero && cfg.historyWindow == 0 {
        return map[];
      }
      hist := store.LoadJobHistory(cfg.historyWindow, now);
    }

    method Restore(ghost s: State, now: Instant)
      requires Abstracts(s) && now == s.clock
      modifies this`jobId, this`serverNonce, this`history
      ensures Abstracts(AfterRestoreHistory(cfg, AfterRestoreLatest(s)))
    {
      RestoreLatestJob(s);
      RestoreWindow(AfterRestoreLatest(s), now);
    }

    /** The second half of the restore. */
    method RestoreWindow(ghost s: State, now: Instant)
      requires Abstracts(s) && now == s.clock
      modifies this`history
      ensures Abstracts(AfterRestoreHistory(cfg, s))
    {
      var hist := LoadHistory(now);
      Merge(hist);
    }

    /** If one session object changed, one entry of the view did. */
    twostate lemma OneSessionChanged(ch: ChannelId)
      requires old(Valid()) && sessions == old(sessions) && ch in sessions
      requires forall c :: c in sessions && c != ch ==> unchanged(sessions[c])
      ensures Valid()
      ensures View() == Coord(old(View()).sessions[ch := sessions[ch].View()], jobId, serverNonce, history)
    {
    }

    /** A push to the session gets through. */
    predicate Open(ch: ChannelId)
      reads this, srv
    {
      ch in sessions && ch in srv.channels && ch !in srv.closed
    }

    /** One turn of the broadcast loop. */
    method DeliverTo(ghost s: State, ch: ChannelId, job: Job) returns (ok: bool)
      requires Abstracts(s) && s.phase.Broadcasting? && ch in sessions
      requires job == Job(jobId, serverNonce)
      modifies srv`told, sessions[ch]
      ensures ok == Open(ch) && Abstracts(AfterDeliver(s, ch, ok)) && sessions == old(sessions)
    {
      var session := sessions[ch];
      assert session.View() == s.coord.sessions[ch];
      session.Assign(job);
      OneSessionChanged(ch);
      ok := srv.Push(session.channelId, job);
    }

    /** The broadcast is the snapshot, one delivery for each session of it in whatever order,
        and the end.  Afterwards every session has the current job and nonce, and exactly that
        job was pushed once on each session's channel that is in the map and open, and nothing
        on any other. */
    method BroadcastJob(ghost s: State) returns (ghost acts: seq<Action>, ghost s': State)
      requires Abstracts(s) && s.phase == Saved
      modifies srv`told, sessions.Values
      ensures ExecFrom(cfg, s, acts) == Some(s') && s'.phase == Idle && Abstracts(s')
      ensures sessions == old(sessions)
      ensures forall ch :: ch in sessions ==> Holds(sessions[ch].View(), Job(jobId, serverNonce))
      ensures forall ch ::
        ToldIn(srv.told, ch) == ToldIn(old(srv.told), ch) + (if Open(ch) then [Job(jobId, serverNonce)] else [])
    {
      acts, s' := TellAll(s);
      BroadcastEnds(cfg, s, srv.closed, acts, s');
      acts, s' := acts + [EndBroadcast], s'.(phase := Idle);
      assert forall ch :: ch in sessions ==> sessions[ch].View() == s'.coord.sessions[ch];
      forall ch
        ensures ToldIn(srv.told, ch) == ToldIn(old(srv.told), ch) + (if Open(ch) then [Job(jobId, serverNonce)] else [])
      {
        assert ToldTo(s', ch) == ToldTo(s, ch) + Tells(s, srv.closed, {}, ch);
      }
    }

    method TellOne(ghost s: State, ghost acts: seq<Action>, ghost s': State, ghost todo: set<ChannelId>, ch: ChannelId, job: Job)
      returns (ghost acts': seq<Action>, ghost s'': State)
      requires Abstracts(s') && Underway(cfg, s, srv.closed, acts, s', todo) && ch in todo && job == Job(jobId, serverNonce)
      modifies srv`told, sessions.Values
      ensures sessions == old(sessions) && Abstracts(s'') && Underway(cfg, s, srv.closed, acts', s'', todo - {ch})
    {
      assert ch in s'.coord.sessions && sessions[ch] in sessions.Values;
      var ok := DeliverTo(s', ch, job);
      BroadcastGoesOn(cfg, s, srv.closed, acts, s', todo, ch, ok);
      acts', s'' := acts + [Deliver(ch, ok)], AfterDeliver(s', ch, ok);
    }

    /** The snapshot and the loop over it. */
    method TellAll(ghost s: State) returns (ghost acts: seq<Action>, ghost s': State)
      requires Abstracts(s) && s.phase == Saved
      modifies srv`told, sessions.Values
      ensures sessions == old(sessions) && Abstracts(s') && Underway(cfg, s, srv.closed, acts, s', {})
    {
      var job := Job(jobId, serverNonce);
      acts, s' := [Snapshot], AfterSnapshot(s);
      BroadcastBegins(cfg, s, srv.closed);
      var todo := sessions.Keys;
      while exists ch :: ch in todo
        invariant sessions == old(sessions) && Abstracts(s') && Underway(cfg, s, srv.closed, acts, s', todo)
        decreases |todo|
      {
        var ch :| ch in todo;
        acts, s' := TellOne(s, acts, s', todo, ch, job);
        todo := todo - {ch};
      }
      assert todo == {};
    }

    /** Refused exactly when the first frame is no authorize request of a named user or no
        identifier can be drawn, and then nothing changes; otherwise the request is answered
        under its own id. */
    method Accept(ghost s: State, frame: Option<FirstFrame>, random: Option<ChannelId>) returns (r: AcceptResult)
      requires Abstracts(s)
      modifies this`sessions
      ensures r.Joined? <==> Authorized(frame).Some? && random.Some?
      ensures r.Refused? ==> sessions == old(sessions) && Abstracts(s)
      ensures r.Joined? <==> random.Some? && exists id, user ::
        user != "" && frame == Some(FirstFrame(true, Some(AuthRequest(Some(id), "authorize", Some(Some(user))))))
      ensures r.Joined? ==> (
        && r.ch in sessions
        && frame == Some(FirstFrame(true, Some(AuthRequest(Some(r.reply.id), "authorize", Some(Some(sessions[r.ch].username)))))))
      ensures r.Joined? ==> (
        && r.ch == random.value && r.ch in sessions && fresh(sessions[r.ch])
        && r.reply == Response(Authorized(frame).value.id, None)
        && sessions == old(sessions)[r.ch := sessions[r.ch]]
        && Abstracts(AfterRestoreUser(AfterRegister(s, r.ch, Authorized(frame).value.username), r.ch)))
    {
      r := Vet(frame, random);
      if r.Refused? { return; }
      ghost var login := Authorized(frame).value;
      RegisterSession(s, r.ch, frame.value.request.value.params.value.value);
      RestoreUserState(AfterRegister(s, r.ch, login.username), r.ch, frame.value.request.value.params.value.value);
    }

    /** The checks of the accept, before anything is changed. */
    method Vet(frame: Option<FirstFrame>, random: Option<ChannelId>) returns (r: AcceptResult)
      ensures r.Joined? <==> Authorized(frame).Some? && random.Some?
      ensures r.Joined? ==> r.ch == random.value && r.reply == Response(Authorized(frame).value.id, None)
      ensures r.Joined? <==> random.Some? && exists id, user ::
        user != "" && frame == Some(FirstFrame(true, Some(AuthRequest(Some(id), "authorize", Some(Some(user))))))
      ensures frame.Some? && !frame.value.binary ==> r == Refused("invalid opcode")
      ensures frame.Some? && frame.value.binary && frame.value.request.Some? ==>
        var req := frame.value.request.value;
        (req.methodName != "authorize" || req.id == None || req.params == None || req.params == Some(Some("")) ==>
          r == Refused("unauthorized"))
    {
      ghost var login := Authorized(frame);
      if login.Some? {
        AuthorizedIff(frame, login.value.id, login.value.username);
      }
      if frame.None? { return Refused("read"); }
      if !frame.value.binary { return Refused("invalid opcode"); }
      if frame.value.request.None? { return Refused("decode"); }
      var req := frame.value.request.value;
      if req.methodName != "authorize" || req.params.None? || req.id.None? { return Refused("unauthorized"); }
      if req.params.value.None? { return Refused("decode"); }
      if req.params.value.value == "" { return Refused("unauthorized"); }
      if random.None? { return Refused("random"); }
      r := AcceptResult.Joined(random.value, Response(req.id.value, None));
    }

    /** The second locked phase of the accept. */
    method RestoreUserState(ghost s: State, ch: ChannelId, user: string)
      requires Abstracts(s) && ch in sessions && sessions[ch].username == user
      modifies sessions[ch]
      ensures Abstracts(AfterRestoreUser(s, ch)) && sessions == old(sessions)
    {
      var us := store.LoadUserState(user);
      var session := sessions[ch];
      assert session.View() == s.coord.sessions[ch];
      session.Adopt(us);
      OneSessionChanged(ch);
    }

    /** The listener's decision and everything it changes. */
    method HandleSubmit(ghost s: State, ch: ChannelId, p: SubmitParams, t1: Instant, t2: Instant) returns (v: Verdict)
      requires Abstracts(s) && AsWritten(cfg)
      modifies if ch in sessions then {sessions[ch]} else {}, store, mq
      ensures v == VerdictOn(cfg, s, ch, p, t1, t2)
      ensures Abstracts(AfterSubmit(cfg, s, ch, p, t1, t2))
      ensures sessions == old(sessions)
      ensures ch in sessions ==>
        var digest := cfg.digest(NonceFor(s.coord.history, s.coord.sessions[ch], p) + p.clientNonce);
        && (v == Accepted && NoCapitals(digest) ==> Capitalised(digest, p.result))
        && (v == InvalidResult ==> p.result != digest)
    {
      if ch !in sessions { return NoSuchTask; }
      var session := sessions[ch];
      assert session.View() == s.coord.sessions[ch];
      v := session.Judge(cfg, history, s.store, p, t1, t2);
      OneSessionChanged(ch);
      SubmitParts(cfg, s, ch, p, t1, t2);
      if v == Accepted {
        Persist(session, p, t2);
      }
    }

    method Persist(session: LiveSession, p: SubmitParams, now: Instant)
      modifies store, mq
      ensures store.View() == StoreAfter(old(store.View()), session.View(), p)
      ensures mq.View() == Published(old(mq.View()), SubmitEvent(session.username, now))
    {
      store.SaveUsedNonce(session.username, p.jobId, p.clientNonce);
      store.SaveUserState(session.username, session.latestJobId, session.latestServerNonce, session.lastSubmitAt);
      mq.Publish(SubmitEvent(session.username, now));
    }

    /** `Listener.Receive`: what does not decode, is no submission or carries no id is passed
        over; anything else is answered under its id. */
    method Receive(ghost s: State, ch: ChannelId, req: Request, t1: Instant, t2: Instant) returns (reply: Option<Response>)
      requires Abstracts(s) && AsWritten(cfg)
      modifies if ch in sessions then {sessions[ch]} else {}, store, mq
      ensures reply == ReplyTo(cfg, s, ch, req, t1, t2)
      ensures reply.Some? && reply.value.error == None
        <==> |AfterRequest(cfg, s, ch, req, t1, t2).log.accepted| == |s.log.accepted| + 1
      ensures Abstracts(AfterRequest(cfg, s, ch, req, t1, t2)) && sessions == old(sessions)
    {
      SuccessMeansAccepted(cfg, s, ch, req, t1, t2);
      if req.Undecodable? { return None; }
      if req.methodName != "submit" || req.id.None? { return None; }
      if req.params.None? { return Some(Response(req.id.value, Some("Invalid result"))); }
      var v := HandleSubmit(s, ch, req.params.value, t1, t2);
      reply := Some(Response(req.id.value, ErrorText(v)));
    }
  }

  /** How the consumer's loop stands: told to stop, or its context cancelled; at a closed and
      empty queue; waiting at an open one. */
  datatype ConsumerEnd = Stopped | QueueClosed | StillWaiting

  /** The consumer, with the stop signal or the cancellation chosen after `turns` events: it
      counts exactly the first `turns` events that it could receive, each once in its minute,
      or all of them if there are fewer, and leaves the others in the queue in their order. */
  method Consume(mq: MemoryQueue, store: MemoryStore, turns: nat) returns (end: ConsumerEnd)
    modifies mq, store
    ensures
      var pending := Pending(old(mq.View()));
      var n := if turns <= |pending| then turns else |pending|;
      && Pending(mq.View()) == pending[n..]
      && mq.closed == old(mq.closed) && mq.dropped == old(mq.dropped) && mq.crashed == old(mq.crashed)
      && (forall u, m :: CountAt(store.View(), u, m) == CountAt(old(store.View()), u, m) + Tally(pending[..n], u, m))
      && end == (if turns <= |pending| then Stopped else if mq.closed then QueueClosed else StillWaiting)
    ensures store.View() == old(store.View()).(counts := store.counts)
  {
    ghost var pending := Pending(mq.View());
    var n := 0;
    assert pending[..0] == [];
    while n < turns
      invariant n <= turns && n <= |pending| && Pending(mq.View()) == pending[n..]
      invariant mq.closed == old(mq.closed) && mq.dropped == old(mq.dropped) && mq.crashed == old(mq.crashed)
      invariant forall u, m :: CountAt(store.View(), u, m) == CountAt(old(store.View()), u, m) + Tally(pending[..n], u, m)
      invariant store.View() == old(store.View()).(counts := store.counts)
    {
      var r := ReceiveNext(mq);
      if !r.Event? {
        assert pending[..n] == pending;
        return if r.Drained? then QueueClosed else StillWaiting;
      }
      store.Increment(r.event.username, r.event.time);
      TallyNext(pending, n);
      n := n + 1;
    }
    end := Stopped;
  }

  method ReceiveNext(mq: MemoryQueue) returns (r: Receipt)
    modifies mq
    ensures mq.closed == old(mq.closed) && mq.dropped == old(mq.dropped) && mq.crashed == old(mq.crashed)
    ensures
      var pending := Pending(old(mq.View()));
      if pending == [] then r == (if mq.closed then Drained else WouldWait) && Pending(mq.View()) == []
      else r == Event(pending[0]) && Pending(mq.View()) == pending[1..]
  {
    if CanReceive(mq.View()) {
      ReceiveShortens(mq.View());
    }
    r := mq.Receive();
  }

  lemma TallyNext(events: seq<SubmitEvent>, n: nat)
    requires n < |events|
    ensures forall u, m :: Tally(events[..n + 1], u, m) == Tally(events[..n], u, m) + Hit(events[n], u, m)
  {
    forall u, m
      ensures Tally(events[..n + 1], u, m) == Tally(events[..n], u, m) + Hit(events[n], u, m)
    {
      assert events[..n + 1][..n] == events[..n];
    }
  }
}
