/** Runs on which the code, as written, falls short of what is intended of it: for every
    configuration and every digest for which they can. */
module Witnesses {
  import opened Types
  import opened Store
  import opened Queue
  import opened Listener
  import opened Protocol
  import opened Nonces
  import opened Theorems
  import opened Honest
  import opened EndToEnd
  import opened Codec
  import Ch = Channel

  function JobsAB(): map<int, JobRecord> {
    map[1 := JobRecord("a", 1), 2 := JobRecord("b", 1)]
  }

  /** A server that has broadcast jobs 1 and 2 to the one connection "c" of user "u". */
  function TwoJobsOut(cfg: Config): State {
    State(1,
          Coord(map["c" := Session("c", "u", 2, "b", 0, map[])], 2, "b", JobsAB()),
          Idle,
          map["c" := Open],
          {"c"},
          StoreState(map[], JobsAB(), 2, "b", map[], map[]),
          NewQueue(cfg.queueSize),
          Consumer(true, None),
          Log({"c"}, {"a", "b"}, [Job(1, "a"), Job(2, "b")], map["c" := [Job(1, "a"), Job(2, "b")]], [], [], [], {}, {}, {}))
  }

  function Opened(cfg: Config): State {
    State(1, Coord(map["c" := Session("c", "u", 0, "", 0, map[])], 0, "", map[]), Idle, map["c" := Open], {"c"},
          EMPTY_STORE, NewQueue(cfg.queueSize), Consumer(true, None), Log({"c"}, {}, [], map[], [], [], [], {}, {}, {}))
  }

  /** The server, restored from the empty store. */
  lemma ReachIdle(cfg: Config) returns (acts: seq<Action>)
    ensures Exec(cfg, acts) == Some(Init(cfg).(phase := Idle)) && acts == [RestoreLatest, RestoreHistory]
  {
    ExecSnoc(cfg, [], Init(cfg), RestoreLatest);
    acts := [] + [RestoreLatest];
    ExecSnoc(cfg, acts, Init(cfg).(phase := Restoring), RestoreHistory);
    acts := acts + [RestoreHistory];
    assert HistorySince(EMPTY_STORE, cfg.historyWindow, 1) == map[];
  }

  function Connected(s: State, ch: ChannelId, user: string): State {
    s.(coord := s.coord.(sessions := s.coord.sessions[ch := Restored(NewSession(ch, user), UserStateOf(s.store, user))]),
       conns := s.conns[ch := Open],
       channels := s.channels + {ch},
       log := s.log.(ids := s.log.ids + {ch},
                     tainted := if user in s.log.taintedUsers then s.log.tainted + {ch} else s.log.tainted - {ch}))
  }

  /** A user opens a connection. */
  lemma Connect(cfg: Config, acts: seq<Action>, s: State, ch: ChannelId, user: string) returns (acts': seq<Action>)
    requires Exec(cfg, acts) == Some(s) && ch !in s.log.ids && ch !in s.channels && user != ""
    ensures Exec(cfg, acts') == Some(Connected(s, ch, user))
    ensures acts' == acts + [Register(ch, user), RestoreUser(ch), AddChannel(ch)]
  {
    acts' := Join(cfg, acts, s, ch, user);
    ExecSnoc(cfg, acts', AfterRestoreUser(AfterRegister(s, ch, user), ch), AddChannel(ch));
    acts' := acts' + [AddChannel(ch)];
    ThreeSteps(s, ch, user);
  }

  lemma Join(cfg: Config, acts: seq<Action>, s: State, ch: ChannelId, user: string) returns (acts': seq<Action>)
    requires Exec(cfg, acts) == Some(s) && ch !in s.log.ids && user != ""
    ensures Exec(cfg, acts') == Some(AfterRestoreUser(AfterRegister(s, ch, user), ch))
    ensures acts' == acts + [Register(ch, user), RestoreUser(ch)]
  {
    ExecSnoc(cfg, acts, s, Register(ch, user));
    acts' := acts + [Register(ch, user)];
    ExecSnoc(cfg, acts', AfterRegister(s, ch, user), RestoreUser(ch));
    acts' := acts' + [RestoreUser(ch)];
  }

  lemma ThreeSteps(s: State, ch: ChannelId, user: string)
    requires ch !in s.channels
    ensures AfterAddChannel(AfterRestoreUser(AfterRegister(s, ch, user), ch), ch) == Connected(s, ch, user)
  {
    var s' := AfterAddChannel(AfterRestoreUser(AfterRegister(s, ch, user), ch), ch);
    assert s'.coord.sessions == Connected(s, ch, user).coord.sessions;
    assert s'.conns == Connected(s, ch, user).conns;
  }

  lemma ReachOpened(cfg: Config) returns (acts: seq<Action>)
    ensures Exec(cfg, acts) == Some(Opened(cfg)) && forall a :: a in acts ==> !a.Submit? && !a.Deliver?
  {
    acts := ReachIdle(cfg);
    acts := Connect(cfg, acts, Init(cfg).(phase := Idle), "c", "u");
    assert Connected(Init(cfg).(phase := Idle), "c", "u") == Opened(cfg);
  }

  function OneJobOut(cfg: Config): State {
    Opened(cfg).(
      coord := Coord(map["c" := Session("c", "u", 1, "a", 0, map[])], 1, "a", map[1 := JobRecord("a", 1)]),
      store := StoreState(map[], map[1 := JobRecord("a", 1)], 1, "a", map[], map[]),
      log := Log({"c"}, {"a"}, [Job(1, "a")], map["c" := [Job(1, "a")]], [], [], [], {}, {}, {}))
  }

  function AfterRound(s: State, nonce: string): State
    requires s.phase == Idle && "c" in s.coord.sessions
  {
    var id := s.coord.jobId + 1;
    s.(coord := Coord(s.coord.sessions["c" := s.coord.sessions["c"].(latestJobId := id, latestServerNonce := nonce)],
                      id, nonce, s.coord.history[id := JobRecord(nonce, s.clock)]),
       store := WithJob(s.store, id, nonce, s.clock),
       log := s.log.(nonces := s.log.nonces + {nonce},
                     broadcasts := s.log.broadcasts + [Job(id, nonce)],
                     tainted := s.log.tainted - {"c"},
                     told := s.log.told["c" := ToldTo(s, "c") + [Job(id, nonce)]]))
  }

  /** The coordinator's loop up to the start of a broadcast. */
  lemma ToBroadcast(cfg: Config, acts: seq<Action>, s: State, nonce: string) returns (acts': seq<Action>)
    requires Exec(cfg, acts) == Some(s) && s.phase == Idle && nonce != "" && nonce !in s.log.nonces
    ensures Exec(cfg, acts') == Some(AfterSnapshot(AfterSaveJob(AfterRotate(s, nonce))))
    ensures acts' == acts + [Rotate(nonce), Action.SaveJob, Snapshot]
  {
    ExecSnoc(cfg, acts, s, Rotate(nonce));
    acts' := acts + [Rotate(nonce)];
    ExecSnoc(cfg, acts', AfterRotate(s, nonce), Action.SaveJob);
    acts' := acts' + [Action.SaveJob];
    ExecSnoc(cfg, acts', AfterSaveJob(AfterRotate(s, nonce)), Snapshot);
    acts' := acts' + [Snapshot];
  }

  /** One turn of the coordinator's loop with the single connection "c". */
  lemma Round(cfg: Config, acts: seq<Action>, s: State, nonce: string) returns (acts': seq<Action>)
    requires Exec(cfg, acts) == Some(s) && s.phase == Idle && nonce != "" && nonce !in s.log.nonces
    requires s.coord.sessions.Keys == {"c"} && s.channels == {"c"} && forall a :: a in acts ==> !a.Submit?
    ensures Exec(cfg, acts') == Some(AfterRound(s, nonce)) && forall a :: a in acts' ==> !a.Submit?
  {
    acts' := ToBroadcast(cfg, acts, s, nonce);
    var s3 := AfterSnapshot(AfterSaveJob(AfterRotate(s, nonce)));
    var s4 := AfterDeliver(s3, "c", true);
    assert s4.phase.pending == {};
    ExecSnoc(cfg, acts', s3, Deliver("c", true));
    acts' := acts' + [Deliver("c", true)];
    ExecSnoc(cfg, acts', s4, EndBroadcast);
    acts' := acts' + [EndBroadcast];
    assert s4.(phase := Idle) == AfterRound(s, nonce);
  }

  lemma FirstRound(cfg: Config)
    ensures AfterRound(Opened(cfg), "a") == OneJobOut(cfg)
  {
    var s, s' := AfterRound(Opened(cfg), "a"), OneJobOut(cfg);
    assert s.coord.sessions == s'.coord.sessions;
    assert s.coord.history == s'.coord.history && s.store.jobHist == s'.store.jobHist;
    assert s.log.nonces == s'.log.nonces && s.log.broadcasts == s'.log.broadcasts;
    assert s.log.tainted == s'.log.tainted && s.log.told == s'.log.told;
  }

  lemma SecondRound(cfg: Config)
    ensures AfterRound(OneJobOut(cfg), "b") == TwoJobsOut(cfg)
  {
    var s, s' := AfterRound(OneJobOut(cfg), "b"), TwoJobsOut(cfg);
    assert s.coord.sessions == s'.coord.sessions;
    assert s.coord.history == s'.coord.history && s.store.jobHist == s'.store.jobHist;
    assert s.log.nonces == s'.log.nonces && s.log.broadcasts == s'.log.broadcasts;
    assert s.log.tainted == s'.log.tainted && s.log.told == s'.log.told;
  }

  lemma ReachTwoJobsOut(cfg: Config) returns (acts: seq<Action>)
    ensures Exec(cfg, acts) == Some(TwoJobsOut(cfg)) && forall a :: a in acts ==> !a.Submit?
  {
    acts := ReachOpened(cfg);
    acts := Round(cfg, acts, Opened(cfg), "a");
    FirstRound(cfg);
    acts := Round(cfg, acts, OneJobOut(cfg), "b");
    SecondRound(cfg);
  }

  // ----- the honest client -----

  lemma {:induction false} ServerRunIsPlay(cfg: Config, ch: ChannelId, acts: seq<Action>) returns (moves: seq<Move>)
    requires Exec(cfg, acts).Some? && forall a :: a in acts ==> !a.Submit?
    ensures Play(cfg, ch, moves) == Some(World(Exec(cfg, acts).value, C.NEW_CLIENT, 0, {}))
  {
    if acts == [] {
      moves := [];
    } else {
      var front := ServerRunIsPlay(cfg, ch, acts[..|acts| - 1]);
      moves := front + [ServerMove(acts[|acts| - 1])];
      assert moves[..|moves| - 1] == front;
    }
  }

  lemma PlaySnoc(cfg: Config, ch: ChannelId, moves: seq<Move>, w: World, m: Move)
    requires Play(cfg, ch, moves) == Some(w) && CanMove(cfg, ch, w, m)
    ensures Play(cfg, ch, moves + [m]) == Some(Moved(cfg, ch, w, m))
  {
    assert (moves + [m])[..|moves + [m]| - 1] == moves;
  }

  /** The right answer to a job. */
  function Answer(cfg: Config, jobId: int, nonce: string, x: string): SubmitParams {
    SubmitParams(jobId, x, cfg.digest(nonce + x))
  }

  /** The client has read both jobs and sent its two answers; neither has been handled. */
  lemma BothAnswered(cfg: Config) returns (moves: seq<Move>, w: World)
    requires AsWritten(cfg)
    ensures Play(cfg, "c", moves) == Some(w) && w.server == TwoJobsOut(cfg) && w.handled == {}
    ensures |w.client.sent| == 2
    ensures w.client.sent[0].params == Answer(cfg, 1, "a", "x")
    ensures w.client.sent[1].params == Answer(cfg, 2, "b", "y")
  {
    var acts := ReachTwoJobsOut(cfg);
    moves := ServerRunIsPlay(cfg, "c", acts);
    w := World(TwoJobsOut(cfg), C.NEW_CLIENT, 0, {});
    PlaySnoc(cfg, "c", moves, w, ReadJob("x", 1));
    moves, w := moves + [ReadJob("x", 1)], Moved(cfg, "c", w, ReadJob("x", 1));
    PlaySnoc(cfg, "c", moves, w, ReadJob("y", 1));
    moves, w := moves + [ReadJob("y", 1)], Moved(cfg, "c", w, ReadJob("y", 1));
  }

  lemma LateAnswerPoisons(cfg: Config)
    requires AsWritten(cfg) && !EqualFold(cfg.digest("ay"), cfg.digest("by"))
    ensures Enabled(cfg, TwoJobsOut(cfg), Submit("c", Answer(cfg, 1, "a", "x"), 1, 1))
    ensures
      var s := AfterSubmit(cfg, TwoJobsOut(cfg), "c", Answer(cfg, 1, "a", "x"), 1, 1);
      && "c" in s.coord.sessions
      && VerdictOn(cfg, s, "c", Answer(cfg, 2, "b", "y"), 2 * SECOND, 2 * SECOND) == InvalidResult
  {
    assert "a" + "y" == "ay" && "b" + "y" == "by";
    var s := AfterSubmit(cfg, TwoJobsOut(cfg), "c", Answer(cfg, 1, "a", "x"), 1, 1);
    assert VerdictOn(cfg, TwoJobsOut(cfg), "c", Answer(cfg, 1, "a", "x"), 1, 1) == Accepted;
    assert s.coord.sessions["c"].latestServerNonce == "a" && s.coord.sessions["c"].latestJobId == 2;
  }

  /** As written, a client that follows its loop is told "Invalid result", with any digest that
      tells "ay" from "by": it answers jobs 1 and 2, the answer to job 1 arrives after job 2 was
      broadcast, and the answer to job 2 is then checked against the nonce of job 1. */
  lemma HonestClientRejected(cfg: Config) returns (moves: seq<Move>)
    requires AsWritten(cfg) && !EqualFold(cfg.digest("ay"), cfg.digest("by"))
    ensures Play(cfg, "c", moves).Some?
    ensures
      var w := Play(cfg, "c", moves).value;
      && 1 < |w.client.sent| && 1 !in w.handled && "c" in w.server.coord.sessions
      && VerdictOn(cfg, w.server, "c", w.client.sent[1].params, 2 * SECOND, 2 * SECOND) == InvalidResult
  {
    var w;
    moves, w := BothAnswered(cfg);
    LateAnswerPoisons(cfg);
    PlaySnoc(cfg, "c", moves, w, Handle(0, 1, 1));
    moves := moves + [Handle(0, 1, 1)];
  }

  // ----- the same nonce twice for one user -----

  /** The connection "c" ends and its user comes back as "d". */
  lemma Reconnect(cfg: Config, acts: seq<Action>, s: State) returns (acts': seq<Action>, s': State)
    requires Exec(cfg, acts) == Some(s) && At(s, "c", Open) && "d" !in s.log.ids && "d" !in s.channels
    ensures Exec(cfg, acts') == Some(s') && At(s', "d", Open) && "d" in s'.coord.sessions
    ensures s'.coord.sessions["d"] == Restored(NewSession("d", "u"), UserStateOf(s.store, "u"))
    ensures s'.log.accepted == s.log.accepted && s'.clock == s.clock && s'.coord.history == s.coord.history
  {
    ExecSnoc(cfg, acts, s, RemoveChannel("c"));
    acts', s' := acts + [RemoveChannel("c")], AfterRemoveChannel(s, "c");
    ExecSnoc(cfg, acts', s', Disconnect("c"));
    acts', s' := acts' + [Disconnect("c")], AfterDisconnect(s', "c");
    acts' := Connect(cfg, acts', s', "d", "u");
    s' := Connected(s', "d", "u");
  }

  /** As written, the same job and nonce are accepted twice for one user who reconnects. */
  lemma ReplayAfterReconnect(cfg: Config) returns (acts: seq<Action>)
    requires AsWritten(cfg)
    ensures Exec(cfg, acts).Some?
    ensures
      var acc := Exec(cfg, acts).value.log.accepted;
      |acc| == 2 && SameUse(acc[0], acc[1]) && acc[0].event.username == acc[1].event.username == "u"
  {
    acts := ReachTwoJobsOut(cfg);
    var s, p, t := TwoJobsOut(cfg), Answer(cfg, 2, "b", "n"), 2 * SECOND;
    assert VerdictOn(cfg, s, "c", p, 1, 1) == Accepted;
    ExecSnoc(cfg, acts, s, Submit("c", p, 1, 1));
    acts, s := acts + [Submit("c", p, 1, 1)], AfterSubmit(cfg, s, "c", p, 1, 1);
    assert UserStateOf(s.store, "u") == UserState(2, "b", 1) && |s.log.accepted| == 1;
    acts, s := Reconnect(cfg, acts, s);
    assert VerdictOn(cfg, s, "d", p, t, t) == Accepted;
    ExecSnoc(cfg, acts, s, Submit("d", p, t, t));
    acts := acts + [Submit("d", p, t, t)];
  }

  // ----- two sessions of one user -----

  /** The user's rate limit needs one session at a time: with two, two submissions are accepted
      at the same instant. */
  lemma TwoSessionsDoubleTheRate(cfg: Config) returns (acts: seq<Action>)
    requires AsWritten(cfg)
    ensures Exec(cfg, acts).Some?
    ensures
      var acc := Exec(cfg, acts).value.log.accepted;
      |acc| == 2 && acc[0].event == acc[1].event == SubmitEvent("u", 1)
  {
    acts := ReachTwoJobsOut(cfg);
    var s, p := TwoJobsOut(cfg), Answer(cfg, 2, "b", "n");
    acts := Connect(cfg, acts, s, "d", "u");
    s := Connected(s, "d", "u");
    assert VerdictOn(cfg, s, "c", p, 1, 1) == Accepted;
    ExecSnoc(cfg, acts, s, Submit("c", p, 1, 1));
    acts, s := acts + [Submit("c", p, 1, 1)], AfterSubmit(cfg, s, "c", p, 1, 1);
    assert |s.log.accepted| == 1 && s.coord.sessions["d"].lastSubmitAt == 0;
    assert VerdictOn(cfg, s, "d", p, 1, 1) == Accepted;
    ExecSnoc(cfg, acts, s, Submit("d", p, 1, 1));
    acts := acts + [Submit("d", p, 1, 1)];
  }

  // ----- job zero -----

  /** As written, job 0, which no job has, is accepted on a session that has heard of none. */
  lemma JobZeroAccepted(cfg: Config) returns (acts: seq<Action>)
    requires AsWritten(cfg)
    ensures Exec(cfg, acts).Some?
    ensures
      var s := Exec(cfg, acts).value;
      |s.log.accepted| == 1 && s.log.accepted[0].params.jobId == 0 && !IssuedJob(s, 0)
  {
    acts := ReachOpened(cfg);
    var p := Answer(cfg, 0, "", "n");
    assert VerdictOn(cfg, Opened(cfg), "c", p, 1, 1) == Accepted;
    ExecSnoc(cfg, acts, Opened(cfg), Submit("c", p, 1, 1));
    acts := acts + [Submit("c", p, 1, 1)];
  }

  /** After a lookup it is accepted there against the nonce of the job that was looked up. */
  lemma JobZeroAcceptedAgainstOldNonce(cfg: Config) returns (acts: seq<Action>, p: SubmitParams)
    requires AsWritten(cfg)
    ensures Exec(cfg, acts).Some? && "d" in Exec(cfg, acts).value.coord.sessions && p.jobId == 0
    ensures NonceFor(Exec(cfg, acts).value.coord.history, Exec(cfg, acts).value.coord.sessions["d"], p) == "a"
    ensures VerdictOn(cfg, Exec(cfg, acts).value, "d", p, 2 * SECOND, 2 * SECOND) == Accepted
  {
    acts := ReachTwoJobsOut(cfg);
    var s, q := TwoJobsOut(cfg), Answer(cfg, 1, "a", "x");
    acts := Connect(cfg, acts, s, "d", "u");
    s := Connected(s, "d", "u");
    assert VerdictOn(cfg, s, "d", q, 1, 1) == Accepted;
    ExecSnoc(cfg, acts, s, Submit("d", q, 1, 1));
    acts, s := acts + [Submit("d", q, 1, 1)], AfterSubmit(cfg, s, "d", q, 1, 1);
    p := Answer(cfg, 0, "a", "y");
    assert s.coord.sessions["d"].latestServerNonce == "a" && 0 !in s.coord.history;
  }

  // ----- expiry during a broadcast -----

  /** With any expiry that is on: a session is told that job 1 is expired while its broadcast is
      under way, and has job 1 accepted once the broadcast has reached it. */
  lemma ExpiredThenAccepted(cfg: Config) returns (acts: seq<Action>, told: Action, p: SubmitParams, t: Instant)
    requires AsWritten(cfg) && cfg.expireAfter > 0
    ensures Exec(cfg, acts).Some? && told.Submit? && Enabled(cfg, Exec(cfg, acts).value, told)
    ensures
      var s := Exec(cfg, acts).value;
      && VerdictOn(cfg, s, told.ch, told.params, told.t1, told.t2) == TaskExpired
      && Exec(cfg, acts + [told, Deliver(told.ch, true)]).Some?
      && p.jobId == told.params.jobId
      && VerdictOn(cfg, Exec(cfg, acts + [told, Deliver(told.ch, true)]).value, told.ch, p, t, t) == Accepted
  {
    acts := ReachOpened(cfg);
    acts := ToBroadcast(cfg, acts, Opened(cfg), "a");
    var s := AfterSnapshot(AfterSaveJob(AfterRotate(Opened(cfg), "a")));
    t, p := cfg.expireAfter + 2, Answer(cfg, 1, "a", "n");
    told := Submit("c", p, t, t);
    assert VerdictOn(cfg, s, "c", p, t, t) == TaskExpired;
    ExecSnoc(cfg, acts, s, told);
    var s1 := AfterSubmit(cfg, s, "c", p, t, t);
    assert s1.phase == s.phase && s1.coord.serverNonce == "a" && s1.coord.jobId == 1;
    ExecSnoc(cfg, acts + [told], s1, Deliver("c", true));
    assert acts + [told] + [Deliver("c", true)] == acts + [told, Deliver("c", true)];
    LatestIsAccepted(cfg, AfterDeliver(s1, "c", true), "c", p, t, t);
  }

  // ----- history window 0 -----

  lemma RestartAndRestore(cfg: Config, acts: seq<Action>, s: State) returns (acts': seq<Action>)
    requires Exec(cfg, acts) == Some(s)
    ensures Exec(cfg, acts') == Some(AfterRestoreHistory(cfg, AfterRestoreLatest(AfterRestart(cfg, s))))
  {
    ExecSnoc(cfg, acts, s, Restart);
    acts' := acts + [Restart];
    ExecSnoc(cfg, acts', AfterRestart(cfg, s), RestoreLatest);
    acts' := acts' + [RestoreLatest];
    ExecSnoc(cfg, acts', AfterRestoreLatest(AfterRestart(cfg, s)), RestoreHistory);
    acts' := acts' + [RestoreHistory];
  }

  /** As written, a restart with window 0 brings back two jobs where the documentation promises
      the latest only. */
  lemma WindowZeroRestoresTwo(cfg: Config) returns (acts: seq<Action>)
    requires AsWritten(cfg) && cfg.historyWindow == 0
    ensures Exec(cfg, acts).Some?
    ensures Exec(cfg, acts).value.coord.jobId == 2 && Exec(cfg, acts).value.coord.history.Keys == {1, 2}
  {
    acts := ReachTwoJobsOut(cfg);
    acts := RestartAndRestore(cfg, acts, TwoJobsOut(cfg));
    assert HistorySince(TwoJobsOut(cfg).store, 0, 1) == JobsAB();
  }

  // ----- shutdown -----

  /** A submission accepted after `Shutdown` has stopped the consumer is never counted by this
      process. */
  lemma AcceptedAfterStop(cfg: Config) returns (acts: seq<Action>)
    requires AsWritten(cfg)
    ensures Exec(cfg, acts).Some?
    ensures
      var s := Exec(cfg, acts).value;
      && ConsumerGone(s) && s.queue.closed && |s.log.accepted| == 1
      && s.store.counts == map[] && Outstanding(s.queue) == [SubmitEvent("u", 1)] && !CountsExact(s)
  {
    acts := ReachTwoJobsOut(cfg);
    var s, p := TwoJobsOut(cfg), Answer(cfg, 2, "b", "n");
    ExecSnoc(cfg, acts, s, StopConsumer);
    acts, s := acts + [StopConsumer], s.(consumer := Consumer(false, None));
    AcceptedByStopped(cfg);
    ExecSnoc(cfg, acts, s, Submit("c", p, 1, 1));
    acts, s := acts + [Submit("c", p, 1, 1)], AfterSubmit(cfg, s, "c", p, 1, 1);
    ExecSnoc(cfg, acts, s, CloseQueue);
    acts, s := acts + [CloseQueue], s.(queue := Closed(s.queue));
    DrainedCountsAreExact(cfg, s);
  }

  lemma AcceptedByStopped(cfg: Config)
    requires AsWritten(cfg)
    ensures
      var s := TwoJobsOut(cfg).(consumer := Consumer(false, None));
      var s' := AfterSubmit(cfg, s, "c", Answer(cfg, 2, "b", "n"), 1, 1);
      && s'.consumer == s.consumer && |s'.log.accepted| == 1 && s'.store.counts == map[]
      && !s'.queue.closed && Outstanding(Closed(s'.queue)) == [SubmitEvent("u", 1)]
  {
    var s := TwoJobsOut(cfg).(consumer := Consumer(false, None));
    assert VerdictOn(cfg, s, "c", Answer(cfg, 2, "b", "n"), 1, 1) == Accepted;
    PublishAppends(s.queue, SubmitEvent("u", 1));
    CloseKeepsAll(Published(s.queue, SubmitEvent("u", 1)));
  }

  // ----- a crash between minting and saving -----

  /** Job 1 is accepted between its minting and its save; the process restarts, and job 1 is
      issued with another nonce than the one that acceptance was checked against. */
  lemma AcceptedForALostNonce(cfg: Config) returns (acts: seq<Action>)
    requires AsWritten(cfg)
    ensures Exec(cfg, acts).Some?
    ensures
      var s := Exec(cfg, acts).value;
      && |s.log.accepted| == 1 && s.log.accepted[0].params.jobId == 1 && s.log.accepted[0].nonceUsed == "a"
      && 1 in s.store.jobHist && s.store.jobHist[1].nonce == "b"
  {
    acts := ReachOpened(cfg);
    var s, p := AfterRotate(Opened(cfg), "a"), Answer(cfg, 1, "a", "n");
    ExecSnoc(cfg, acts, Opened(cfg), Rotate("a"));
    acts := acts + [Rotate("a")];
    assert VerdictOn(cfg, s, "c", p, 1, 1) == Accepted;
    ExecSnoc(cfg, acts, s, Submit("c", p, 1, 1));
    acts, s := acts + [Submit("c", p, 1, 1)], AfterSubmit(cfg, s, "c", p, 1, 1);
    acts := RestartAndRestore(cfg, acts, s);
    s := AfterRestoreHistory(cfg, AfterRestoreLatest(AfterRestart(cfg, s)));
    ExecSnoc(cfg, acts, s, Rotate("b"));
    acts, s := acts + [Rotate("b")], AfterRotate(s, "b");
    ExecSnoc(cfg, acts, s, Action.SaveJob);
    acts := acts + [Action.SaveJob];
  }

  // ----- end to end -----

  /** A run, and an encoding, on which a client does read a job: one is minted, saved and pushed
      on the connection "c", and the write loop writes it. */
  lemma AJobGetsThrough(cfg: Config)
    returns (moves: seq<NetMove>, encode: Ch.Payload -> seq<Byte>, decode: seq<Byte> -> Ch.Payload)
    requires AsWritten(cfg)
    ensures NetRun(cfg, "c", moves).Some? && Faithful(NetRun(cfg, "c", moves).value.chan.written, encode, decode)
    ensures
      var written := NetRun(cfg, "c", moves).value.chan.written;
      Ch.JobsIn(Decoded(written, encode, decode, |PrintAll(FramesOf(written, encode))|)) == [Job(1, "a")]
  {
    var n;
    moves, n := JobWritten(cfg);
    encode, decode := EncodingExists(n.chan.written);
    ClientReadsPrefix(cfg, "c", n, encode, decode, |PrintAll(FramesOf(n.chan.written, encode))|);
    assert Ch.JobsIn(n.chan.written[..0]) == [];
  }

  lemma JobWritten(cfg: Config) returns (moves: seq<NetMove>, n: Net)
    requires AsWritten(cfg)
    ensures NetRun(cfg, "c", moves) == Some(n) && n.chan.written == [Ch.JobMessage(Job(1, "a"))]
  {
    var acts := ReachOpened(cfg);
    acts := ToBroadcast(cfg, acts, Opened(cfg), "a");
    var s := AfterSnapshot(AfterSaveJob(AfterRotate(Opened(cfg), "a")));
    moves := ServerRunIsNet(cfg, "c", acts);
    moves, n := PushAndWrite(cfg, moves, Net(s, Ch.NEW_CHAN));
  }

  /** The job passes the test, is sent, and is written. */
  lemma PushAndWrite(cfg: Config, moves: seq<NetMove>, n: Net) returns (moves': seq<NetMove>, n': Net)
    requires NetRun(cfg, "c", moves) == Some(n) && n.chan == Ch.NEW_CHAN
    requires n.server.phase.Broadcasting? && "c" in n.server.phase.pending && "c" in n.server.channels
    ensures NetRun(cfg, "c", moves') == Some(n') && n'.chan.written == [CurrentJob(n.server)]
  {
    var test, deliver := ChanStep(Ch.Test(CurrentJob(n.server))), ServerAct(Deliver("c", true));
    NetSnoc(cfg, "c", moves, n, test);
    moves', n' := moves + [test], Done(cfg, "c", n, test);
    NetSnoc(cfg, "c", moves', n', deliver);
    moves', n' := moves' + [deliver], Done(cfg, "c", n', deliver);
    NetSnoc(cfg, "c", moves', n', ChanStep(Ch.WriteFirst(true)));
    moves', n' := moves' + [ChanStep(Ch.WriteFirst(true))], Done(cfg, "c", n', ChanStep(Ch.WriteFirst(true)));
  }
}
